/** The result page of src/components/result/result-dashboard.tsx: the
    total cost, the grouping of items by room, which rooms show their
    product rows, the one-way unlock flag and the currency chosen for the
    page language. */
module ResultDashboard {
  import opened Wrappers
  import opened Products
  import opened Strings
  import opened I18nContext
  import opened UnlockForm
  import opened JsObjects

  /** The line total of one item, `item.price * item.quantity`. */
  function Subtotal(e: EnrichedItem): int
  {
    e.price * e.quantity
  }

  /** `enrichedItems.reduce((acc, item) => acc + item.price * item.quantity, 0)`. */
  function TotalCost(items: seq<EnrichedItem>): int
    decreases |items|
  {
    if items == [] then 0 else TotalCost(items[..|items| - 1]) + Subtotal(items[|items| - 1])
  }

  lemma TotalCostAppend(items: seq<EnrichedItem>, e: EnrichedItem)
    ensures TotalCost(items + [e]) == TotalCost(items) + Subtotal(e)
  {
    assert (items + [e])[..|items|] == items;
  }

  /** The total is additive: the cost of two lists is the sum of their costs. */
  lemma {:induction false} TotalCostConcat(a: seq<EnrichedItem>, b: seq<EnrichedItem>)
    ensures TotalCost(a + b) == TotalCost(a) + TotalCost(b)
    decreases |b|
  {
    if b == [] {
      assert a + b == a;
    } else {
      var n := |b| - 1;
      assert a + b == (a + b[..n]) + [b[n]];
      assert b == b[..n] + [b[n]];
      TotalCostConcat(a, b[..n]);
      TotalCostAppend(a + b[..n], b[n]);
      TotalCostAppend(b[..n], b[n]);
    }
  }

  /** With non-negative prices and quantities the total is never negative. */
  lemma {:induction false} TotalCostNonNegative(items: seq<EnrichedItem>)
    requires forall i :: 0 <= i < |items| ==> items[i].price >= 0 && items[i].quantity >= 0
    ensures TotalCost(items) >= 0
    decreases |items|
  {
    if items != [] {
      TotalCostNonNegative(items[..|items| - 1]);
      var last := items[|items| - 1];
      assert last.price * last.quantity >= 0;
    }
  }

  /** `item.room || 'General'`. */
  function RoomKey(e: EnrichedItem): string
  {
    if e.room == "" then "General" else e.room
  }

  /** The items of one room group, in `enrichedItems` order. */
  function InRoom(items: seq<EnrichedItem>, room: string): seq<EnrichedItem>
    decreases |items|
  {
    if items == [] then []
    else
      var last := items[|items| - 1];
      InRoom(items[..|items| - 1], room) + (if RoomKey(last) == room then [last] else [])
  }

  function Rooms(items: seq<EnrichedItem>): set<string>
  {
    set e | e in items :: RoomKey(e)
  }

  /** An item belongs to a room group exactly when its room key is that room. */
  lemma {:induction false} InRoomMembers(items: seq<EnrichedItem>, room: string, x: EnrichedItem)
    ensures x in InRoom(items, room) <==> x in items && RoomKey(x) == room
    decreases |items|
  {
    if items != [] {
      var n := |items| - 1;
      assert items == items[..n] + [items[n]];
      InRoomMembers(items[..n], room, x);
    }
  }

  /** A room with no item has an empty group. */
  lemma InRoomEmpty(items: seq<EnrichedItem>, room: string)
    requires room !in Rooms(items)
    ensures InRoom(items, room) == []
  {
    if InRoom(items, room) != [] {
      InRoomMembers(items, room, InRoom(items, room)[0]);
    }
  }

  function Size(group: seq<EnrichedItem>): int
  {
    |group|
  }

  /** The sum of a measure over every group of a grouping. */
  ghost function GroupSum(groups: map<string, seq<EnrichedItem>>, measure: seq<EnrichedItem> -> int): int
    decreases |groups|
  {
    if groups == map[] then 0
    else
      var room :| room in groups;
      assert |groups - {room}| < |groups| by {
        assert (groups - {room}).Keys == groups.Keys - {room};
      }
      measure(groups[room]) + GroupSum(groups - {room}, measure)
  }

  /** The sum does not depend on which group is taken first. */
  lemma {:induction false} GroupSumRemove(groups: map<string, seq<EnrichedItem>>, measure: seq<EnrichedItem> -> int, room: string)
    requires room in groups
    ensures GroupSum(groups, measure) == measure(groups[room]) + GroupSum(groups - {room}, measure)
    decreases |groups|
  {
    var first :| first in groups && GroupSum(groups, measure) == measure(groups[first]) + GroupSum(groups - {first}, measure);
    if first != room {
      assert (groups - {first}).Keys == groups.Keys - {first};
      assert (groups - {room}).Keys == groups.Keys - {room};
      GroupSumRemove(groups - {first}, measure, room);
      GroupSumRemove(groups - {room}, measure, first);
      assert groups - {first} - {room} == groups - {room} - {first};
    }
  }

  /** Replacing one group changes the sum by that group's measure only. */
  lemma GroupSumUpdate(groups: map<string, seq<EnrichedItem>>, measure: seq<EnrichedItem> -> int, room: string, group: seq<EnrichedItem>)
    ensures GroupSum(groups[room := group], measure) == GroupSum(groups - {room}, measure) + measure(group)
  {
    GroupSumRemove(groups[room := group], measure, room);
    assert groups[room := group] - {room} == groups - {room};
  }

  /** `if (!acc[room]) acc[room] = []; acc[room].push(item)` on a map
      accumulator. */
  function Push(groups: map<string, seq<EnrichedItem>>, room: string, item: EnrichedItem): map<string, seq<EnrichedItem>>
  {
    groups[room := (if room in groups then groups[room] else []) + [item]]
  }

  /** `groups` is the grouping of the items seen so far. */
  ghost predicate Grouped(seen: seq<EnrichedItem>, groups: map<string, seq<EnrichedItem>>)
  {
    && groups.Keys == Rooms(seen)
    && (forall room :: room in groups ==> groups[room] == InRoom(seen, room))
    && GroupSum(groups, Size) == |seen|
    && GroupSum(groups, TotalCost) == TotalCost(seen)
  }

  /** The measure of a group grows by one item's share when it is pushed. */
  lemma GroupSumPush(before: map<string, seq<EnrichedItem>>, room: string, item: EnrichedItem, measure: seq<EnrichedItem> -> int, delta: int)
    requires var old_ := if room in before then before[room] else [];
             measure(old_ + [item]) == measure(old_) + delta
    requires room !in before ==> measure([]) == 0
    ensures GroupSum(Push(before, room, item), measure) == GroupSum(before, measure) + delta
  {
    var group := (if room in before then before[room] else []) + [item];
    GroupSumUpdate(before, measure, room, group);
    if room in before {
      GroupSumRemove(before, measure, room);
    } else {
      assert before - {room} == before;
    }
  }

  /** The room keys of a list grow by the pushed item's key. */
  lemma RoomsAppend(items: seq<EnrichedItem>, item: EnrichedItem)
    ensures Rooms(items + [item]) == Rooms(items) + {RoomKey(item)}
  {
    forall k | k in Rooms(items + [item])
      ensures k in Rooms(items) + {RoomKey(item)}
    {
      var e :| e in items + [item] && RoomKey(e) == k;
    }
    forall k | k in Rooms(items)
      ensures k in Rooms(items + [item])
    {
      var e :| e in items && RoomKey(e) == k;
      assert e in items + [item];
    }
    assert item in items + [item];
  }

  /** Pushing an item onto its room's group keeps every group equal to the
      items of its room. */
  lemma GroupContentsStep(prefix: seq<EnrichedItem>, item: EnrichedItem, before: map<string, seq<EnrichedItem>>)
    requires before.Keys == Rooms(prefix)
    requires forall room :: room in before ==> before[room] == InRoom(prefix, room)
    ensures Push(before, RoomKey(item), item).Keys == Rooms(prefix + [item])
    ensures forall r :: r in Push(before, RoomKey(item), item) ==>
              Push(before, RoomKey(item), item)[r] == InRoom(prefix + [item], r)
  {
    var room := RoomKey(item);
    var after := Push(before, room, item);
    RoomsAppend(prefix, item);
    assert (prefix + [item])[..|prefix|] == prefix;
    forall r | r in after
      ensures after[r] == InRoom(prefix + [item], r)
    {
      assert InRoom(prefix + [item], r) == InRoom(prefix, r) + (if room == r then [item] else []);
      if r == room && room !in before {
        InRoomEmpty(prefix, room);
      }
    }
  }

  /** Pushing the next item onto its room's group extends the grouping by
      that item. */
  lemma GroupAppend(seen: seq<EnrichedItem>, item: EnrichedItem, before: map<string, seq<EnrichedItem>>)
    requires Grouped(seen, before)
    ensures Grouped(seen + [item], Push(before, RoomKey(item), item))
  {
    var room := RoomKey(item);
    var after := Push(before, room, item);
    GroupContentsStep(seen, item, before);
    GroupSizeStep(before, room, item);
    GroupCostStep(before, room, item);
    TotalCostAppend(seen, item);
    assert GroupSum(after, Size) == |seen + [item]|;
    assert GroupSum(after, TotalCost) == TotalCost(seen + [item]);
  }

  /** Pushing an item adds one to the summed group sizes. */
  lemma GroupSizeStep(before: map<string, seq<EnrichedItem>>, room: string, item: EnrichedItem)
    ensures GroupSum(Push(before, room, item), Size) == GroupSum(before, Size) + 1
  {
    GroupSumPush(before, room, item, Size, 1);
  }

  /** Pushing an item adds its subtotal to the summed group totals. */
  lemma GroupCostStep(before: map<string, seq<EnrichedItem>>, room: string, item: EnrichedItem)
    ensures GroupSum(Push(before, room, item), TotalCost) == GroupSum(before, TotalCost) + Subtotal(item)
  {
    TotalCostAppend(if room in before then before[room] else [], item);
    GroupSumPush(before, room, item, TotalCost, Subtotal(item));
  }

  lemma GroupedAll(items: seq<EnrichedItem>, groups: map<string, seq<EnrichedItem>>)
    requires Grouped(items, groups)
    ensures groups.Keys == Rooms(items)
    ensures forall room :: room in groups ==> groups[room] == InRoom(items, room)
    ensures forall i :: 0 <= i < |items| ==> items[i] in groups[RoomKey(items[i])]
    ensures GroupSum(groups, Size) == |items|
    ensures GroupSum(groups, TotalCost) == TotalCost(items)
  {
    forall j | 0 <= j < |items|
      ensures items[j] in groups[RoomKey(items[j])]
    {
      InRoomMembers(items, RoomKey(items[j]), items[j]);
    }
  }

  /** `groupedByRoom`: every item is pushed onto the group of its room key,
      which is created empty the first time that key is seen.  The groups
      are exactly the room keys of the items; each group holds the items of
      its room in their original order; the group sizes add up to the item
      count and the group totals add up to the total cost. */
  method GroupByRoom(items: seq<EnrichedItem>) returns (groups: map<string, seq<EnrichedItem>>)
    ensures groups.Keys == Rooms(items)
    ensures forall room :: room in groups ==> groups[room] == InRoom(items, room)
    ensures forall i :: 0 <= i < |items| ==> items[i] in groups[RoomKey(items[i])]
    ensures GroupSum(groups, Size) == |items|
    ensures GroupSum(groups, TotalCost) == TotalCost(items)
  {
    groups := map[];
    var i := 0;
    ghost var seen: seq<EnrichedItem> := [];
    while i < |items|
      invariant 0 <= i <= |items|
      invariant seen == items[..i]
      invariant Grouped(seen, groups)
    {
      var item := items[i];
      var room := RoomKey(item);
      assert items[..i + 1] == items[..i] + [item];
      GroupAppend(seen, item, groups);
      groups := Push(groups, room, item);
      seen := seen + [item];
      i := i + 1;
    }
    assert items[..i] == items;
    GroupedAll(items, groups);
  }

  /** The grouping reduce as written over a plain `{}` accumulator: for a
      room key that names an inherited member, `acc[room]` is already truthy
      (a function, or the prototype object), so no array is created and
      `acc[room].push` throws a TypeError; other keys behave like
      `GroupByRoom`. */
  function GroupAsWritten(items: seq<EnrichedItem>): (r: Result<map<string, seq<EnrichedItem>>, string>)
    ensures r.Ok? <==> forall i :: 0 <= i < |items| ==> RoomKey(items[i]) !in InheritedNames
    ensures r.Ok? ==> r.value.Keys == Rooms(items)
    ensures r.Ok? ==> forall room :: room in r.value ==> r.value[room] == InRoom(items, room)
    decreases |items|
  {
    if items == [] then Ok(map[])
    else
      var n := |items| - 1;
      var last := items[n];
      var room := RoomKey(last);
      match GroupAsWritten(items[..n])
      case Err(message) => Err(message)
      case Ok(acc) =>
        if room in InheritedNames then Err("acc[room].push is not a function")
        else
          assert items == items[..n] + [last];
          GroupContentsStep(items[..n], last, acc);
          Ok(Push(acc, room, last))
  }

  /** A single item in a room named "constructor" makes the reduce throw,
      so the dashboard cannot render that proposal. */
  lemma ConstructorRoomThrows(e: EnrichedItem)
    requires e.room == "constructor"
    ensures GroupAsWritten([e]).Err?
  {
    assert RoomKey([e][0]) in InheritedNames;
  }

  /** `room === '客厅' || room.toLowerCase().includes('living')`. */
  predicate IsLivingRoom(room: string)
  {
    room == "客厅" || Contains(ToLower(room), "living")
  }

  lemma ToLowerConcat(a: string, b: string)
    ensures ToLower(a + b) == ToLower(a) + ToLower(b)
  {
  }

  /** Any room name containing "living" in any ASCII letter case is a
      living room. */
  lemma LivingRoomAnyCase(before: string, word: string, after: string)
    requires ToLower(word) == "living"
    ensures IsLivingRoom(before + word + after)
  {
    ToLowerConcat(before + word, after);
    ToLowerConcat(before, word);
    ContainsInMiddle(ToLower(before), "living", ToLower(after));
  }

  /** A table row of a room group: a product line, or the single prompt
      that asks the visitor to unlock. */
  datatype Row =
    | ProductRow(imageSrc: string, name: string, brand: string, quantity: int, unitPrice: int, subtotal: int)
    | UnlockPrompt

  const DefaultImageUrl := "https://picsum.photos/seed/default/400/400"

  function ProductRowOf(e: EnrichedItem): Row
  {
    ProductRow(if e.imageUrl == "" then DefaultImageUrl else e.imageUrl, e.name, e.brand, e.quantity, e.price, Subtotal(e))
  }

  function ProductRows(items: seq<EnrichedItem>): (rows: seq<Row>)
    ensures |rows| == |items|
    ensures forall i :: 0 <= i < |items| ==> rows[i] == ProductRowOf(items[i])
    decreases |items|
  {
    if items == [] then [] else ProductRows(items[..|items| - 1]) + [ProductRowOf(items[|items| - 1])]
  }

  /** The sum of the subtotal column. */
  function SubtotalColumn(rows: seq<Row>): int
    decreases |rows|
  {
    if rows == [] then 0
    else
      var last := rows[|rows| - 1];
      SubtotalColumn(rows[..|rows| - 1]) + (if last.ProductRow? then last.subtotal else 0)
  }

  lemma {:induction false} SubtotalColumnIsTotalCost(items: seq<EnrichedItem>)
    ensures SubtotalColumn(ProductRows(items)) == TotalCost(items)
    decreases |items|
  {
    if items != [] {
      var n := |items| - 1;
      SubtotalColumnIsTotalCost(items[..n]);
      var rows := ProductRows(items);
      assert rows[..n] == ProductRows(items[..n]);
    }
  }

  /** The body of a room's table: its product rows when the page is
      unlocked or the room is a living room, otherwise the single unlock
      prompt.  Shown rows carry each item's image (the default picture when
      `imageUrl` is empty), name, brand, quantity, unit price and subtotal,
      and their subtotals add up to the room's cost. */
  function RoomBody(room: string, items: seq<EnrichedItem>, unlocked: bool): (rows: seq<Row>)
    ensures rows == [UnlockPrompt] <==> !(unlocked || IsLivingRoom(room))
    ensures unlocked || IsLivingRoom(room) ==>
              |rows| == |items| && SubtotalColumn(rows) == TotalCost(items)
              && forall i :: 0 <= i < |items| ==>
                   rows[i].ProductRow? && rows[i].name == items[i].name && rows[i].brand == items[i].brand
                   && rows[i].imageSrc == (if items[i].imageUrl == "" then DefaultImageUrl else items[i].imageUrl)
                   && rows[i].quantity == items[i].quantity
                   && rows[i].unitPrice == items[i].price && rows[i].subtotal == Subtotal(items[i])
  {
    if unlocked || IsLivingRoom(room) then
      var rows := ProductRows(items);
      SubtotalColumnIsTotalCost(items);
      assert rows != [UnlockPrompt] by {
        if |rows| == 1 { assert rows[0].ProductRow?; }
      }
      rows
    else [UnlockPrompt]
  }

  /** The number format chosen for the page language. */
  datatype CurrencyFormat = CurrencyFormat(locale: string, currency: string)

  /** Chinese selects yuan with the zh-CN locale; every other language
      selects US dollars with en-US. */
  function CurrencyFor(language: Language): (f: CurrencyFormat)
    ensures language == Zh <==> f == CurrencyFormat("zh-CN", "CNY")
    ensures language != Zh <==> f == CurrencyFormat("en-US", "USD")
  {
    if language == Zh then CurrencyFormat("zh-CN", "CNY") else CurrencyFormat("en-US", "USD")
  }

  /** One rendering of the dashboard.  `isUnlocked` starts false and only
      `HandleUnlock` writes it, always to true; `leads` records the customer
      data each unlock receives. */
  class Dashboard {
    const proposal: Proposal
    const language: Language
    var isUnlocked: bool
    var leads: seq<LeadValues>

    constructor (proposal: Proposal, language: Language)
      ensures this.proposal == proposal && this.language == language
      ensures !isUnlocked && leads == []
    {
      this.proposal := proposal;
      this.language := language;
      isUnlocked := false;
      leads := [];
    }

    /** `handleUnlock(data)`: log the data and set the unlock flag. */
    method HandleUnlock(data: LeadValues)
      modifies this
      ensures isUnlocked
      ensures leads == old(leads) + [data]
    {
      leads := leads + [data];
      isUnlocked := true;
    }

    /** The unlock form's submission followed by its `onUnlock` callback:
        valid values unlock the page with exactly those values and close the
        dialog; invalid values change nothing. */
    method SubmitUnlockForm(dialog: UnlockDialog, values: LeadValues)
      modifies this, dialog
      ensures Validate(values).Ok? ==> isUnlocked && !dialog.open && leads == old(leads) + [values]
      ensures Validate(values).Err? ==>
                isUnlocked == old(isUnlocked) && leads == old(leads) && dialog.open == old(dialog.open)
      ensures old(isUnlocked) ==> isUnlocked
    {
      var unlock := dialog.Submit(values);
      if unlock.Some? {
        HandleUnlock(unlock.value);
      }
    }

    function RoomView(room: string, items: seq<EnrichedItem>): seq<Row>
      reads this
    {
      RoomBody(room, items, isUnlocked)
    }

    /** The total and the analysis are blurred, and the unlock button shown,
        while the page is locked. */
    predicate SummaryBlurred()
      reads this
    {
      !isUnlocked
    }

    function Currency(): CurrencyFormat
    {
      CurrencyFor(language)
    }
  }
}
