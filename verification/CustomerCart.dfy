/**
 The customer's cart and its copy in local storage, apps/customer-app/src/store/cart.store.ts with
 lib/cart-utils.ts and lib/persist-cart.ts, and its restoration by table-session-sync.tsx.
 A stored JSON text is the value it was made from.
 */
module CartModel {
  import opened Options
  import opened Selections
  import opened Sequences
  import Text

  datatype Context = Context(restaurantId: string, tableId: Option<string>)

  datatype Item = Item(cartLineId: Option<string>, menuItemId: string, quantity: int, notes: Option<string>,
                       modifierOptionIds: Option<seq<string>>)

  datatype Draft = Draft(context: Context, guestSessionId: Option<string>, items: seq<Item>)

  datatype EditingInfo = EditingInfo(id: string, number: int, version: int)

  datatype Stored = CartValue(draft: Draft) | EditingValue(info: EditingInfo)

  type Storage = map<string, Stored>

  // ---------- persist-cart.ts ----------

  function TableText(c: Context): string { if c.tableId.Some? then c.tableId.value else "undefined" }

  function CartKey(c: Context): string { "customer:cart-draft:" + c.restaurantId + ":" + TableText(c) }

  function EditingKey(c: Context): string { "customer:cart-editing:" + c.restaurantId + ":" + TableText(c) }

  /** A stored cart counts only if it is for the context it is looked up with. */
  function LoadCart(storage: Storage, c: Context): Option<Draft> {
    if CartKey(c) in storage && storage[CartKey(c)].CartValue? && storage[CartKey(c)].draft.context == c
    then Some(storage[CartKey(c)].draft) else None
  }

  function LoadEditing(storage: Storage, c: Context): Option<EditingInfo> {
    if EditingKey(c) in storage && storage[EditingKey(c)].EditingValue? then Some(storage[EditingKey(c)].info) else None
  }

  function PersistCart(storage: Storage, d: Draft): Storage {
    if d.items == [] then storage - {CartKey(d.context)} else storage[CartKey(d.context) := CartValue(d)]
  }

  function PersistEditing(storage: Storage, info: Option<EditingInfo>, c: Context): Storage {
    if info.None? then storage - {EditingKey(c)} else storage[EditingKey(c) := EditingValue(info.value)]
  }

  // ---------- cart-utils.ts ----------

  /** `buildLineKey`: what the JSON text of a line's item, trimmed notes and normalized ids determines. */
  function LineKey(i: Item): (string, string, seq<string>) {
    (i.menuItemId, Text.Trim(if i.notes.Some? then i.notes.value else ""), UniqueSorted(i.modifierOptionIds))
  }

  function LineId(i: Item): string { if i.cartLineId.Some? then i.cartLineId.value else i.menuItemId }

  // ---------- cart.store.ts ----------

  datatype Cart = Cart(draft: Option<Draft>, editing: Option<EditingInfo>, storage: Storage)

  /** Replaces the draft and writes it through. */
  function WithDraft(s: Cart, d: Draft): Cart { s.(draft := Some(d), storage := PersistCart(s.storage, d)) }

  function ItemsFor(s: Cart, c: Context): seq<Item> {
    if s.draft.Some? && s.draft.value.context == c then s.draft.value.items else []
  }

  function HasKey(key: (string, string, seq<string>)): Item -> bool { (i: Item) => LineKey(i) == key }

  /** The first line with a given key. */
  function FindLine(items: seq<Item>, key: (string, string, seq<string>)): Option<nat> { FindFirst(items, HasKey(key)) }

  /** Adds to the line with the key of `item`, or appends `item`. */
  function Merge(items: seq<Item>, item: Item): seq<Item> {
    match FindLine(items, LineKey(item))
    case None => items + [item]
    case Some(i) => items[i := items[i].(quantity := items[i].quantity + item.quantity)]
  }

  function UnitsOf(key: (string, string, seq<string>)): Item -> int {
    (i: Item) => if LineKey(i) == key then i.quantity else 0
  }

  /** How many units of one line key a list of lines holds. */
  function Units(items: seq<Item>, key: (string, string, seq<string>)): int { Total(items, UnitsOf(key)) }

  /** Merging adds exactly the item's quantity to its line key and nothing to any other. */
  lemma MergeCounts(items: seq<Item>, item: Item, key: (string, string, seq<string>))
    ensures Units(Merge(items, item), key) == Units(items, key) + (if LineKey(item) == key then item.quantity else 0)
  {
    hide UniqueSorted, Text.Trim;
    var found := FindLine(items, LineKey(item));
    if found.None? {
      FrontLast(items, item);
    } else {
      var i := found.value;
      TotalUpdate(items, i, items[i].(quantity := items[i].quantity + item.quantity), UnitsOf(key));
    }
  }

  /** A plain line: no notes, no modifiers. */
  function PlainItem(menuItemId: string, id: string): Item { Item(Some(id), menuItemId, 1, None, Some([])) }

  function AddItem(s: Cart, menuItemId: string, c: Context, newId: string): Cart {
    WithDraft(s, Draft(c, None, Merge(ItemsFor(s, c), PlainItem(menuItemId, newId))))
  }

  function ConfiguredItem(menuItemId: string, quantity: int, notes: Option<string>, ids: Option<seq<string>>, id: string): Item {
    Item(Some(id), menuItemId, quantity,
         if notes.Some? && Text.Trim(notes.value) != "" then Some(Text.Trim(notes.value)) else None,
         if ids.Some? && ids.value != [] then Some(UniqueSorted(ids)) else None)
  }

  function AddConfigured(s: Cart, menuItemId: string, c: Context, quantity: int, notes: Option<string>,
                         ids: Option<seq<string>>, id: string): Cart {
    WithDraft(s, Draft(c, None, Merge(ItemsFor(s, c), ConfiguredItem(menuItemId, quantity, notes, ids, id))))
  }

  /** Every line with the id changes its quantity by `delta`. */
  function Recount(items: seq<Item>, lineId: string, delta: int): seq<Item> {
    seq(|items|, i requires 0 <= i < |items| =>
      if LineId(items[i]) == lineId then items[i].(quantity := items[i].quantity + delta) else items[i])
  }

  const HasUnits: Item -> bool := (i: Item) => i.quantity > 0

  function OtherLine(lineId: string): Item -> bool { (i: Item) => LineId(i) != lineId }

  function WithItems(s: Cart, items: seq<Item>): Cart
    requires s.draft.Some?
  {
    WithDraft(s, s.draft.value.(items := items))
  }

  function IncrementItem(s: Cart, lineId: string): Cart {
    if s.draft.None? then s else WithItems(s, Recount(s.draft.value.items, lineId, 1))
  }

  function DecrementItem(s: Cart, lineId: string): Cart {
    if s.draft.None? then s else WithItems(s, Filter(Recount(s.draft.value.items, lineId, -1), HasUnits))
  }

  function RemoveItem(s: Cart, lineId: string): Cart {
    if s.draft.None? then s else WithItems(s, Filter(s.draft.value.items, OtherLine(lineId)))
  }

  function Clear(s: Cart): Cart {
    Cart(None, None,
         if s.draft.None? then s.storage
         else PersistEditing(s.storage - {CartKey(s.draft.value.context)}, None, s.draft.value.context))
  }

  function NormalizeItem(i: Item, newId: string): Item {
    i.(cartLineId := Some(if i.cartLineId.Some? then i.cartLineId.value else newId),
       modifierOptionIds := Some(UniqueSorted(i.modifierOptionIds)))
  }

  /** `newId(i)` is the random id drawn for line `i`, if it needs one. */
  function NormalizeItems(items: seq<Item>, newId: nat -> string): seq<Item> {
    seq(|items|, i requires 0 <= i < |items| => NormalizeItem(items[i], newId(i)))
  }

  function Hydrate(s: Cart, d: Draft, info: Option<EditingInfo>, newId: nat -> string): Cart {
    var normalized := d.(items := NormalizeItems(d.items, newId));
    var storage := PersistCart(s.storage, normalized);
    Cart(Some(normalized), info, if info.Some? then PersistEditing(storage, info, d.context) else storage)
  }

  /** An item of an order, with the option id of each of its modifiers. */
  datatype OrderItem = OrderItem(id: Option<string>, menuItemId: string, quantity: int, notes: Option<string>,
                                 modifiers: Option<seq<Option<string>>>)

  const Chosen: Option<string> -> bool := (id: Option<string>) => id.Some? && id.value != ""

  function OptionIds(modifiers: seq<Option<string>>): seq<string> {
    var chosen := Filter(modifiers, Chosen);
    seq(|chosen|, i requires 0 <= i < |chosen| => if chosen[i].Some? then chosen[i].value else "")
  }

  function LineOf(item: OrderItem, newId: string): Item {
    Item(Some(if item.id.Some? then item.id.value else newId), item.menuItemId, item.quantity, item.notes,
         Some(if item.modifiers.Some? then OptionIds(item.modifiers.value) else []))
  }

  /** The lines of an order; `newId(i)` is the random id drawn for item `i`, if it needs one. */
  function LinesOf(items: seq<OrderItem>, newId: nat -> string): seq<Item> {
    seq(|items|, i requires 0 <= i < |items| => LineOf(items[i], newId(i)))
  }

  function StartEditing(s: Cart, items: seq<OrderItem>, newId: nat -> string, guestSessionId: Option<string>,
                        info: EditingInfo, c: Context): Cart {
    var s' := WithDraft(s, Draft(c, guestSessionId, LinesOf(items, newId)));
    s'.(editing := Some(info), storage := PersistEditing(s'.storage, Some(info), c))
  }

  // ---------- What the buttons do ----------

  /** A configured dish has the line key that was asked for: trimming and normalizing it again when it
      is compared changes nothing. */
  lemma ConfiguredKey(menuItemId: string, quantity: int, notes: Option<string>, ids: Option<seq<string>>, id: string)
    ensures LineKey(ConfiguredItem(menuItemId, quantity, notes, ids, id)) ==
            (menuItemId, Text.Trim(if notes.Some? then notes.value else ""), UniqueSorted(ids))
  {
    if notes.Some? {
      Text.TrimTwice(notes.value);
    }
    assert Text.Trim("") == "";
    NormalizeIdsTwice(ids);
    assert ids == Some([]) ==> UniqueSorted(ids) == UniqueSorted(None);
  }

  /** Adding a dish with options puts exactly the quantity asked for on that dish, those notes and those
      options, and leaves every other line key of the table as it was; the cart of another table is left. */
  lemma AddConfiguredCounts(s: Cart, menuItemId: string, c: Context, quantity: int, notes: Option<string>,
                            ids: Option<seq<string>>, id: string, key: (string, string, seq<string>))
    ensures var after := AddConfigured(s, menuItemId, c, quantity, notes, ids, id);
            var asked := (menuItemId, Text.Trim(if notes.Some? then notes.value else ""), UniqueSorted(ids));
            Units(ItemsFor(after, c), key) == Units(ItemsFor(s, c), key) + (if key == asked then quantity else 0)
  {
    ConfiguredKey(menuItemId, quantity, notes, ids, id);
    MergeCounts(ItemsFor(s, c), ConfiguredItem(menuItemId, quantity, notes, ids, id), key);
  }

  /** Adding a plain dish adds one unit to the line without notes and options, and to no other. */
  lemma AddItemCounts(s: Cart, menuItemId: string, c: Context, id: string, key: (string, string, seq<string>))
    ensures Units(ItemsFor(AddItem(s, menuItemId, c, id), c), key) ==
            Units(ItemsFor(s, c), key) + (if key == (menuItemId, "", []) then 1 else 0)
  {
    assert LineKey(PlainItem(menuItemId, id)) == (menuItemId, "", []);
    MergeCounts(ItemsFor(s, c), PlainItem(menuItemId, id), key);
  }

  /** Every line holds something, and no two lines share a line key or a line id. */
  ghost predicate Tidy(items: seq<Item>) {
    Positive(items) && PairwiseApart(items)
  }

  ghost predicate PairwiseApart(items: seq<Item>) {
    forall i, j :: 0 <= i < j < |items| ==> Apart(items[i], items[j])
  }

  ghost predicate Positive(items: seq<Item>) {
    forall i :: 0 <= i < |items| ==> items[i].quantity > 0
  }

  const Apart: (Item, Item) -> bool := (a: Item, b: Item) => LineKey(a) != LineKey(b) && LineId(a) != LineId(b)

  ghost predicate DistinctLineIds(items: seq<Item>) {
    forall i, j :: 0 <= i < j < |items| ==> LineId(items[i]) != LineId(items[j])
  }

  lemma ApartIds(items: seq<Item>)
    requires PairwiseApart(items)
    ensures DistinctLineIds(items)
  {
    hide LineKey;
    forall i, j | 0 <= i < j < |items|
      ensures LineId(items[i]) != LineId(items[j])
    {
      assert Apart(items[i], items[j]);
    }
  }

  /** The only line with its id is the only one recounted. */
  lemma RecountAt(items: seq<Item>, n: nat, delta: int)
    requires n < |items| && DistinctLineIds(items)
    ensures Recount(items, LineId(items[n]), delta) == items[n := items[n].(quantity := items[n].quantity + delta)]
  {
  }

  /** Plus adds one unit to the line's key, minus takes one away and remove takes the whole line away,
      and no other key is affected, however many lines have the same key. */
  lemma ButtonsCount(items: seq<Item>, n: nat, key: (string, string, seq<string>))
    requires n < |items| && Positive(items) && DistinctLineIds(items)
    ensures var (id, same) := (LineId(items[n]), LineKey(items[n]) == key);
            && Units(Recount(items, id, 1), key) == Units(items, key) + (if same then 1 else 0)
            && Units(Filter(Recount(items, id, -1), HasUnits), key) == Units(items, key) - (if same then 1 else 0)
            && Units(Filter(items, OtherLine(id)), key) == Units(items, key) - (if same then items[n].quantity else 0)
  {
    RecountCounts(items, n, 1, key);
    MinusCounts(items, n, key);
    RemoveCounts(items, n, key);
  }

  lemma RecountCounts(items: seq<Item>, n: nat, delta: int, key: (string, string, seq<string>))
    requires n < |items| && DistinctLineIds(items)
    ensures Units(Recount(items, LineId(items[n]), delta), key) == Units(items, key) + (if LineKey(items[n]) == key then delta else 0)
  {
    RecountAt(items, n, delta);
    KeyIgnoresQuantity(items[n], items[n].quantity + delta);
    hide LineKey, LineId, Recount;
    TotalUpdate(items, n, items[n].(quantity := items[n].quantity + delta), UnitsOf(key));
  }

  lemma MinusCounts(items: seq<Item>, n: nat, key: (string, string, seq<string>))
    requires n < |items| && Positive(items) && DistinctLineIds(items)
    ensures Units(Filter(Recount(items, LineId(items[n]), -1), HasUnits), key) == Units(items, key) - (if LineKey(items[n]) == key then 1 else 0)
  {
    RecountCounts(items, n, -1, key);
    RecountAt(items, n, -1);
    hide LineKey, LineId, Recount, Filter, Total;
    var down := Recount(items, LineId(items[n]), -1);
    TotalFilter(down, HasUnits, UnitsOf(key), down, UnitsOf(key));
  }

  lemma RemoveCounts(items: seq<Item>, n: nat, key: (string, string, seq<string>))
    requires n < |items| && DistinctLineIds(items)
    ensures Units(Filter(items, OtherLine(LineId(items[n]))), key) == Units(items, key) - (if LineKey(items[n]) == key then items[n].quantity else 0)
  {
    KeyIgnoresQuantity(items[n], 0);
    OthersApart(items, n);
    hide LineKey, LineId, Filter, Total;
    var none := items[n := items[n].(quantity := 0)];
    TotalUpdate(items, n, none[n], UnitsOf(key));
    TotalFilter(items, OtherLine(LineId(items[n])), UnitsOf(key), none, UnitsOf(key));
  }

  lemma KeyIgnoresQuantity(i: Item, quantity: int)
    ensures LineKey(i.(quantity := quantity)) == LineKey(i) && LineId(i.(quantity := quantity)) == LineId(i)
  {
  }

  lemma OthersApart(items: seq<Item>, n: nat)
    requires n < |items| && DistinctLineIds(items)
    ensures forall i :: 0 <= i < |items| ==> (OtherLine(LineId(items[n]))(items[i]) <==> i != n)
  {
  }

  /** Minus undoes plus. */
  lemma DecrementUndoesIncrement(items: seq<Item>, id: string)
    requires Positive(items)
    ensures Filter(Recount(Recount(items, id, 1), id, -1), HasUnits) == items
  {
    assert Recount(Recount(items, id, 1), id, -1) == items;
    FilterAll(items, HasUnits);
  }

  lemma RecountKeepsApart(items: seq<Item>, id: string, delta: int)
    requires PairwiseApart(items)
    ensures PairwiseApart(Recount(items, id, delta))
  {
    var after := Recount(items, id, delta);
    forall i | 0 <= i < |items|
      ensures LineKey(after[i]) == LineKey(items[i]) && LineId(after[i]) == LineId(items[i])
    {
      KeyIgnoresQuantity(items[i], after[i].quantity);
    }
    hide LineKey, LineId;
    forall i, j | 0 <= i < j < |items|
      ensures Apart(after[i], after[j])
    {
      assert Apart(items[i], items[j]);
    }
  }

  /** What it takes for an item to be merged tidily: on a line of its key it leaves a positive quantity; otherwise
      it has one itself, and a new id. */
  ghost predicate MergesTidily(items: seq<Item>, item: Item) {
    match FindLine(items, LineKey(item))
    case Some(i) => items[i].quantity + item.quantity > 0
    case None => item.quantity > 0 && forall l :: l in items ==> LineId(l) != LineId(item)
  }

  lemma MergeTidyIff(items: seq<Item>, item: Item)
    requires Tidy(items)
    ensures Tidy(Merge(items, item)) <==> MergesTidily(items, item)
  {
    hide LineKey, LineId, Recount;
    var found, after := FindLine(items, LineKey(item)), Merge(items, item);
    if found.Some? {
      ApartIds(items);
      RecountAt(items, found.value, item.quantity);
      RecountKeepsApart(items, LineId(items[found.value]), item.quantity);
      assert after[found.value].quantity == items[found.value].quantity + item.quantity;
    } else {
      assert after[|items|] == item;
      if Tidy(after) {
        forall l | l in items
          ensures LineId(l) != LineId(item)
        {
          var i :| 0 <= i < |items| && items[i] == l;
          assert Apart(after[i], after[|items|]);
        }
        assert after[|items|].quantity > 0;
      }
      if MergesTidily(items, item) {
        assert forall i :: 0 <= i < |items| ==> items[i] in items && Apart(items[i], item);
      }
    }
  }

  lemma FilterKeepsTidy(items: seq<Item>, p: Item -> bool)
    requires PairwiseApart(items) && forall i :: 0 <= i < |items| && p(items[i]) ==> items[i].quantity > 0
    ensures Tidy(Filter(items, p))
  {
    assert Sorted(items, Apart);
    FilterSorted(items, Apart, p);
    FilterMembers(items, p);
    hide LineKey, LineId;
    forall i | 0 <= i < |Filter(items, p)|
      ensures Filter(items, p)[i].quantity > 0
    {
      assert Filter(items, p)[i] in Filter(items, p);
    }
  }

  // ---------- Keys ----------

  lemma KeysApart(a: Context, b: Context)
    ensures CartKey(a) != EditingKey(b)
  {
    assert CartKey(a)[14] == 'd' && EditingKey(b)[14] == 'e';
  }

  /** One context's key text: restaurant, colon, table. */
  function KeyText(c: Context): string { c.restaurantId + ":" + TableText(c) }

  /** The other restaurant's id goes on after a colon, and what follows that is how the table text starts. */
  predicate Overlaps(a: Context, b: Context) {
    && |a.restaurantId| < |b.restaurantId|
    && b.restaurantId[..|a.restaurantId|] == a.restaurantId && b.restaurantId[|a.restaurantId|] == ':'
    && TableText(a) == b.restaurantId[|a.restaurantId| + 1..] + ":" + TableText(b)
  }

  /** When two contexts have the same keys: one restaurant and the same table text, or overlapping ids. */
  predicate ShareKeys(a: Context, b: Context) {
    (a.restaurantId == b.restaurantId && TableText(a) == TableText(b)) || Overlaps(a, b) || Overlaps(b, a)
  }

  lemma TextsEqualIff(a: Context, b: Context)
    requires |a.restaurantId| <= |b.restaurantId|
    ensures KeyText(a) == KeyText(b) <==> (a.restaurantId == b.restaurantId && TableText(a) == TableText(b)) || Overlaps(a, b)
  {
    hide TableText;
    if KeyText(a) == KeyText(b) {
      EqualTextsOverlap(a.restaurantId, TableText(a), b.restaurantId, TableText(b));
    }
    if Overlaps(a, b) {
      OverlapsEqualTexts(a.restaurantId, b.restaurantId, TableText(b));
    }
  }

  lemma EqualTextsOverlap(x: string, p: string, y: string, q: string)
    requires x + ":" + p == y + ":" + q && |x| <= |y|
    ensures |x| == |y| ==> x == y && p == q
    ensures |x| < |y| ==> y[..|x|] == x && y[|x|] == ':' && p == y[|x| + 1..] + ":" + q
  {
    var n, s := |x|, x + ":" + p;
    assert s[..n] == x && s[n] == ':' && s[n + 1..] == p;
    assert s[..|y|] == y && s[|y|..] == ":" + q;
    if n < |y| {
      assert y[..n] == s[..n] && y[n] == s[n];
      assert s[n + 1..] == s[n + 1..|y|] + s[|y|..] && s[n + 1..|y|] == y[n + 1..];
      assert y[n + 1..] + (":" + q) == y[n + 1..] + ":" + q;
    }
  }

  lemma OverlapsEqualTexts(x: string, y: string, q: string)
    requires |x| < |y| && y[..|x|] == x && y[|x|] == ':'
    ensures x + ":" + (y[|x| + 1..] + ":" + q) == y + ":" + q
  {
    var rest := y[|x| + 1..];
    assert y == x + ":" + rest;
    assert x + ":" + (rest + ":" + q) == (x + ":" + rest) + ":" + q;
  }

  /** Two contexts share their storage keys exactly in these cases; an order at no table shares them with one
      at a table called `undefined`. */
  lemma KeysShareIff(a: Context, b: Context)
    ensures CartKey(a) == CartKey(b) <==> ShareKeys(a, b)
    ensures EditingKey(a) == EditingKey(b) <==> ShareKeys(a, b)
  {
    var cart, editing := "customer:cart-draft:", "customer:cart-editing:";
    assert CartKey(a) == cart + KeyText(a) && CartKey(b) == cart + KeyText(b);
    assert EditingKey(a) == editing + KeyText(a) && EditingKey(b) == editing + KeyText(b);
    assert (cart + KeyText(a))[|cart|..] == KeyText(a) && (cart + KeyText(b))[|cart|..] == KeyText(b);
    assert (editing + KeyText(a))[|editing|..] == KeyText(a) && (editing + KeyText(b))[|editing|..] == KeyText(b);
    hide CartKey, EditingKey;
    if |a.restaurantId| <= |b.restaurantId| {
      TextsEqualIff(a, b);
    } else {
      TextsEqualIff(b, a);
    }
  }

  predicate PlainContext(c: Context) { ':' !in c.restaurantId && c.tableId != Some("undefined") }

  /** In particular contexts with plain ids never do. */
  lemma KeysInjective(a: Context, b: Context)
    requires PlainContext(a) && PlainContext(b)
    ensures CartKey(a) == CartKey(b) <==> a == b
    ensures EditingKey(a) == EditingKey(b) <==> a == b
  {
    hide CartKey, EditingKey;
    KeysShareIff(a, b);
    NoOverlap(a, b);
    NoOverlap(b, a);
  }

  lemma NoOverlap(a: Context, b: Context)
    requires ':' !in b.restaurantId
    ensures !Overlaps(a, b)
  {
    if |a.restaurantId| < |b.restaurantId| {
      assert b.restaurantId[|a.restaurantId|] in b.restaurantId;
    }
  }

  /** What storing at one context does to another. Where they share keys, the other finds no cart any more, since
      loading checks whose it is, but is handed the editing info, since that is not checked; otherwise it finds
      what it had. */
  lemma StoringAt(storage: Storage, d: Draft, info: EditingInfo, b: Context)
    requires d.context != b && d.items != []
    ensures var (cart, editing) := (PersistCart(storage, d), PersistEditing(storage, Some(info), d.context));
            && LoadCart(cart, b) == (if ShareKeys(d.context, b) then None else LoadCart(storage, b))
            && LoadEditing(editing, b) == (if ShareKeys(d.context, b) then Some(info) else LoadEditing(storage, b))
  {
    KeysShareIff(d.context, b);
    hide CartKey, EditingKey, ShareKeys;
  }

  /** Two pairs of contexts that share keys: with a colon in an id, and without. */
  lemma KeysCollide()
    ensures ShareKeys(Context("r", Some("s:t")), Context("r:s", Some("t")))
    ensures ShareKeys(Context("r", None), Context("r", Some("undefined")))
  {
    var a, b := Context("r", Some("s:t")), Context("r:s", Some("t"));
    assert b.restaurantId[..1] == a.restaurantId && b.restaurantId[2..] == "s";
    assert Overlaps(a, b);
  }

  // ---------- The cart and its stored copy ----------

  /** What loading a context's cart should give for a draft of it. */
  function CopyOf(d: Draft): Option<Draft> { if d.items == [] then None else Some(d) }

  ghost predicate Mirrored(s: Cart) {
    s.draft.Some? ==> LoadCart(s.storage, s.draft.value.context) == CopyOf(s.draft.value)
  }

  /** Writing a draft makes it the stored cart of its context, and changes no other context's cart or
      editing info. */
  lemma PersistCartEffect(storage: Storage, d: Draft, c: Context)
    ensures LoadCart(PersistCart(storage, d), d.context) == CopyOf(d)
    ensures CartKey(c) != CartKey(d.context) ==> LoadCart(PersistCart(storage, d), c) == LoadCart(storage, c)
    ensures LoadEditing(PersistCart(storage, d), c) == LoadEditing(storage, c)
  {
    KeysApart(d.context, c);
  }

  lemma PersistEditingEffect(storage: Storage, info: Option<EditingInfo>, c: Context, other: Context)
    ensures LoadEditing(PersistEditing(storage, info, c), c) == info
    ensures LoadCart(PersistEditing(storage, info, c), other) == LoadCart(storage, other)
    ensures EditingKey(other) != EditingKey(c) ==> LoadEditing(PersistEditing(storage, info, c), other) == LoadEditing(storage, other)
  {
    KeysApart(other, c);
  }

  // ---------- Runs ----------

  datatype Op =
    | AddOp(menuItemId: string, context: Context, newId: string)
    | AddConfiguredOp(menuItemId: string, context: Context, quantity: int, notes: Option<string>,
                      ids: Option<seq<string>>, newId: string)
    | IncrementOp(lineId: string)
    | DecrementOp(lineId: string)
    | RemoveOp(lineId: string)
    | ClearOp
    | HydrateOp(draft: Draft, info: Option<EditingInfo>, newIds: nat -> string)
    | StartEditingOp(orderItems: seq<OrderItem>, lineIds: nat -> string, guestSessionId: Option<string>,
                     editing: EditingInfo, context: Context)

  function Step(s: Cart, op: Op): Cart {
    match op
    case AddOp(menuItemId, c, newId) => AddItem(s, menuItemId, c, newId)
    case AddConfiguredOp(menuItemId, c, quantity, notes, ids, newId) => AddConfigured(s, menuItemId, c, quantity, notes, ids, newId)
    case IncrementOp(lineId) => IncrementItem(s, lineId)
    case DecrementOp(lineId) => DecrementItem(s, lineId)
    case RemoveOp(lineId) => RemoveItem(s, lineId)
    case ClearOp => Clear(s)
    case HydrateOp(d, info, newIds) => Hydrate(s, d, info, newIds)
    case StartEditingOp(items, newIds, guest, info, c) => StartEditing(s, items, newIds, guest, info, c)
  }

  function Run(s: Cart, ops: seq<Op>): Cart {
    if ops == [] then s else Step(Run(s, Front(ops)), Last(ops))
  }

  /** The context that an operation writes to. */
  function Touches(s: Cart, op: Op): Option<Context> {
    match op
    case AddOp(_, c, _) => Some(c)
    case AddConfiguredOp(_, c, _, _, _, _) => Some(c)
    case HydrateOp(d, _, _) => Some(d.context)
    case StartEditingOp(_, _, _, _, c) => Some(c)
    case _ => if s.draft.Some? then Some(s.draft.value.context) else None
  }

  /** After every operation the stored cart of the draft's context is the draft, or nothing if it is empty;
      a cleared context has nothing stored; the stored carts of all other contexts are untouched. */
  lemma StepMirrors(s: Cart, op: Op, c: Context)
    requires Mirrored(s)
    ensures Mirrored(Step(s, op))
    ensures Touches(s, op).None? || CartKey(c) != CartKey(Touches(s, op).value) ==> LoadCart(Step(s, op).storage, c) == LoadCart(s.storage, c)
    ensures op.ClearOp? && s.draft.Some? ==>
              LoadCart(Step(s, op).storage, s.draft.value.context).None? && LoadEditing(Step(s, op).storage, s.draft.value.context).None?
  {
    hide CartKey, EditingKey, LineKey, FindLine, UniqueSorted, Filter;
    var s' := Step(s, op);
    match op
    case ClearOp =>
      if s.draft.Some? {
        var d := s.draft.value;
        PersistCartEffect(s.storage, d.(items := []), c);
        PersistEditingEffect(s.storage - {CartKey(d.context)}, None, d.context, c);
        PersistEditingEffect(s.storage - {CartKey(d.context)}, None, d.context, d.context);
      }
    case HydrateOp(d, info, _) =>
      PersistCartEffect(s.storage, s'.draft.value, c);
      PersistEditingEffect(PersistCart(s.storage, s'.draft.value), info, d.context, c);
      PersistEditingEffect(PersistCart(s.storage, s'.draft.value), info, d.context, d.context);
    case StartEditingOp(_, _, _, info, context) =>
      PersistCartEffect(s.storage, s'.draft.value, c);
      PersistEditingEffect(PersistCart(s.storage, s'.draft.value), Some(info), context, c);
      PersistEditingEffect(PersistCart(s.storage, s'.draft.value), Some(info), context, context);
    case _ =>
      if s'.draft.Some? {
        PersistCartEffect(s.storage, s'.draft.value, c);
      }
  }

  lemma {:induction false} RunMirrors(s: Cart, ops: seq<Op>)
    requires Mirrored(s)
    ensures Mirrored(Run(s, ops))
  {
    if ops != [] {
      RunMirrors(s, Front(ops));
      StepMirrors(Run(s, Front(ops)), Last(ops), Context("", None));
    }
  }

  /** An order being edited is stored as such, for the draft's context. */
  ghost predicate EditingStored(s: Cart) {
    s.editing.Some? ==> s.draft.Some? && LoadEditing(s.storage, s.draft.value.context) == s.editing
  }

  /** Adding to the cart of a context whose stored editing info is not that of the order being edited. */
  predicate CarriesEditingAway(s: Cart, op: Op) {
    (op.AddOp? || op.AddConfiguredOp?) && s.editing.Some? && LoadEditing(s.storage, op.context) != s.editing
  }

  /** An operation keeps the order being edited stored exactly when it is not such an addition, which can only
      be one at another table. */
  lemma StepEditingIff(s: Cart, op: Op)
    requires EditingStored(s)
    ensures EditingStored(Step(s, op)) <==> !CarriesEditingAway(s, op)
    ensures CarriesEditingAway(s, op) ==> op.context != s.draft.value.context && Step(s, op).editing == s.editing
  {
    hide CartKey, EditingKey, LineKey, FindLine, UniqueSorted, Filter, Merge, Recount, LoadEditing;
    var s' := Step(s, op);
    if s'.draft.Some? {
      var c := s'.draft.value.context;
      PersistCartEffect(s.storage, s'.draft.value, c);
      var stored := PersistCart(s.storage, s'.draft.value);
      match op
      case HydrateOp(_, info, _) => PersistEditingEffect(stored, info, c, c);
      case StartEditingOp(_, _, _, info, _) => PersistEditingEffect(stored, Some(info), c, c);
      case _ =>
    }
  }

  predicate NeverCarriesEditingAway(s: Cart, ops: seq<Op>) {
    ops == [] || (NeverCarriesEditingAway(s, Front(ops)) && !CarriesEditingAway(Run(s, Front(ops)), Last(ops)))
  }

  lemma {:induction false} RunKeepsEditing(s: Cart, ops: seq<Op>)
    requires EditingStored(s) && NeverCarriesEditingAway(s, ops)
    ensures EditingStored(Run(s, ops))
  {
    if ops != [] {
      RunKeepsEditing(s, Front(ops));
      StepEditingIff(Run(s, Front(ops)), Last(ops));
    }
  }

  // ---------- What the operations do to the draft ----------

  function UnitsIn(s: Cart, key: (string, string, seq<string>)): int {
    if s.draft.Some? then Units(s.draft.value.items, key) else 0
  }

  /** Adding is at the context it is given: on top of the draft if that is for this context, from nothing if it is
      for another or there is none. The draft's lines of every other key keep their units. */
  lemma AddEffect(s: Cart, op: Op, key: (string, string, seq<string>))
    requires op.AddOp? || op.AddConfiguredOp?
    ensures var s' := Step(s, op);
            var units := if s.draft.Some? && s.draft.value.context == op.context then UnitsIn(s, key) else 0;
            var asked := if op.AddOp? then (op.menuItemId, "", [])
                         else (op.menuItemId, Text.Trim(if op.notes.Some? then op.notes.value else ""), UniqueSorted(op.ids));
            && s'.draft.Some? && s'.draft.value.context == op.context && s'.draft.value.guestSessionId.None?
            && s'.editing == s.editing
            && UnitsIn(s', key) == units + (if key != asked then 0 else if op.AddOp? then 1 else op.quantity)
  {
    hide Merge, Units, Text.Trim, UniqueSorted, PersistCart;
    match op
    case AddOp(menuItemId, c, id) =>
      AddItemCounts(s, menuItemId, c, id, key);
      NoUnits(key);
    case AddConfiguredOp(menuItemId, c, quantity, notes, ids, id) =>
      AddConfiguredCounts(s, menuItemId, c, quantity, notes, ids, id, key);
      NoUnits(key);
  }

  /** The line that is asked for. */
  predicate Asks(op: Op, i: Item)
    requires op.AddOp? || op.AddConfiguredOp?
  {
    match op
    case AddOp(menuItemId, _, id) => i == Item(Some(id), menuItemId, 1, None, Some([]))
    case AddConfiguredOp(menuItemId, _, quantity, notes, ids, id) =>
      && i == Item(Some(id), menuItemId, quantity, i.notes, i.modifierOptionIds)
      && i.notes == (if notes.None? || Text.Trim(notes.value) == "" then None else Some(Text.Trim(notes.value)))
      && i.modifierOptionIds == (if ids.None? || ids.value == [] then None else Some(UniqueSorted(ids)))
  }

  /** The item went to the first line of its key, which keeps all but its quantity, or else to the end. */
  ghost predicate MergedInto(items: seq<Item>, item: Item, after: seq<Item>) {
    if exists i :: 0 <= i < |items| && LineKey(items[i]) == LineKey(item) then
      exists i :: 0 <= i < |items| && LineKey(items[i]) == LineKey(item) && (forall k :: 0 <= k < i ==> LineKey(items[k]) != LineKey(item))
                  && after == items[i := items[i].(quantity := items[i].quantity + item.quantity)]
    else after == items + [item]
  }

  lemma MergeIs(items: seq<Item>, item: Item)
    ensures MergedInto(items, item, Merge(items, item))
  {
    hide LineKey;
    var found := FindLine(items, LineKey(item));
    if found.Some? {
      assert LineKey(items[found.value]) == LineKey(item);
    }
  }

  /** What is added is merged into the lines of its context's draft, as it was asked for. */
  lemma AddMerges(s: Cart, op: Op) returns (item: Item)
    requires op.AddOp? || op.AddConfiguredOp?
    ensures Asks(op, item)
    ensures MergedInto(if s.draft.Some? && s.draft.value.context == op.context then s.draft.value.items else [], item,
                       Step(s, op).draft.value.items)
  {
    hide LineKey, PersistCart, Text.Trim, UniqueSorted, Merge, MergedInto;
    item := match op
      case AddOp(menuItemId, _, id) => PlainItem(menuItemId, id)
      case AddConfiguredOp(menuItemId, _, quantity, notes, ids, id) => ConfiguredItem(menuItemId, quantity, notes, ids, id);
    MergeIs(ItemsFor(s, op.context), item);
  }

  lemma NoUnits(key: (string, string, seq<string>))
    ensures Units([], key) == 0
  {
  }

  /** With positive quantities and distinct line ids the buttons change the units of the named line's key by one,
      by minus one and by minus its quantity, and of no other; they keep the context, guest session and order being
      edited. */
  lemma ButtonEffect(s: Cart, n: nat, key: (string, string, seq<string>))
    requires s.draft.Some? && n < |s.draft.value.items| && Positive(s.draft.value.items) && DistinctLineIds(s.draft.value.items)
    ensures var line := s.draft.value.items[n];
            var (id, same) := (if line.cartLineId.Some? then line.cartLineId.value else line.menuItemId, LineKey(line) == key);
            && UnitsIn(Step(s, IncrementOp(id)), key) == UnitsIn(s, key) + (if same then 1 else 0)
            && UnitsIn(Step(s, DecrementOp(id)), key) == UnitsIn(s, key) - (if same then 1 else 0)
            && UnitsIn(Step(s, RemoveOp(id)), key) == UnitsIn(s, key) - (if same then line.quantity else 0)
            && forall op :: op == IncrementOp(id) || op == DecrementOp(id) || op == RemoveOp(id) ==> SameVisit(s, Step(s, op))
  {
    hide LineKey, Units, Recount, Filter, PersistCart;
    ButtonsCount(s.draft.value.items, n, key);
  }

  /** The draft of the same context and guest session, and the same order being edited. */
  predicate SameVisit(s: Cart, s': Cart) {
    && s'.editing == s.editing && (s'.draft.Some? <==> s.draft.Some?)
    && (s.draft.Some? ==> s'.draft.value == s.draft.value.(items := s'.draft.value.items))
  }

  /** The lines that an order is edited as: item by item its id, or the one drawn for it, its dish, quantity and
      notes, and of its modifiers the option ids that are not empty, in their order. */
  lemma EditedLines(s: Cart, items: seq<OrderItem>, newId: nat -> string, guest: Option<string>, info: EditingInfo, c: Context, i: nat)
    requires i < |items|
    ensures var s' := Step(s, StartEditingOp(items, newId, guest, info, c));
            && s'.editing == Some(info) && s'.draft.Some? && s'.draft.value.context == c && s'.draft.value.guestSessionId == guest
            && var lines := s'.draft.value.items;
               && |lines| == |items|
               && lines[i].cartLineId == Some(if items[i].id.Some? then items[i].id.value else newId(i))
               && lines[i].menuItemId == items[i].menuItemId && lines[i].quantity == items[i].quantity && lines[i].notes == items[i].notes
               && lines[i].modifierOptionIds == Some(if items[i].modifiers.Some? then OptionIds(items[i].modifiers.value) else [])
  {
    hide PersistCart, PersistEditing, OptionIds;
    assert LinesOf(items, newId)[i] == LineOf(items[i], newId(i));
  }

  lemma OptionIdsIs(modifiers: seq<Option<string>>, id: Option<string>)
    ensures OptionIds([]) == []
    ensures OptionIds(modifiers + [id]) == OptionIds(modifiers) + (if id.None? || id == Some("") then [] else [id.value])
  {
    FilterSnoc(modifiers, id, Chosen);
  }

  /** Hydrating replaces the draft by the given one, line by line with an id and normalized options, and the order
      being edited by the given one or none; clearing leaves neither. */
  lemma ReplacedDraft(s: Cart, d: Draft, info: Option<EditingInfo>, newIds: nat -> string, i: nat)
    requires i < |d.items|
    ensures Step(s, ClearOp).draft.None? && Step(s, ClearOp).editing.None?
    ensures var s' := Step(s, HydrateOp(d, info, newIds));
            && s'.editing == info && s'.draft.Some? && s'.draft.value == d.(items := s'.draft.value.items)
            && var lines := s'.draft.value.items;
               && |lines| == |d.items|
               && lines[i] == Item(Some(if d.items[i].cartLineId.Some? then d.items[i].cartLineId.value else newIds(i)), d.items[i].menuItemId,
                                   d.items[i].quantity, d.items[i].notes, Some(UniqueSorted(d.items[i].modifierOptionIds)))
  {
    hide PersistCart, PersistEditing, UniqueSorted;
    assert NormalizeItems(d.items, newIds)[i] == NormalizeItem(d.items[i], newIds(i));
  }

  // ---------- The lines stay tidy ----------

  ghost predicate TidyCart(s: Cart) { s.draft.Some? ==> Tidy(s.draft.value.items) }

  /** Lines that are tidy once they have ids: their own, or the ones drawn for them. */
  ghost predicate LoadsTidily(items: seq<Item>, newId: nat -> string) {
    && Positive(items)
    && forall i, j :: 0 <= i < j < |items| ==>
         LineKey(items[i]) != LineKey(items[j]) && IdAfter(items[i], newId(i)) != IdAfter(items[j], newId(j))
  }

  function IdAfter(i: Item, newId: string): string { if i.cartLineId.Some? then i.cartLineId.value else newId }

  /** Items of an order with positive quantities and different ids, no two of one dish, notes and options. */
  ghost predicate OrdersTidily(items: seq<OrderItem>, newId: nat -> string) {
    && (forall i :: 0 <= i < |items| ==> items[i].quantity > 0)
    && forall i, j :: 0 <= i < j < |items| ==> Apart(LineOf(items[i], newId(i)), LineOf(items[j], newId(j)))
  }

  /** The condition on an operation, in terms of what it finds. */
  ghost predicate ActsTidily(s: Cart, op: Op) {
    match op
    case AddOp(menuItemId, c, id) => MergesTidily(ItemsFor(s, c), PlainItem(menuItemId, id))
    case AddConfiguredOp(menuItemId, c, quantity, notes, ids, id) =>
      MergesTidily(ItemsFor(s, c), ConfiguredItem(menuItemId, quantity, notes, ids, id))
    case HydrateOp(d, _, newIds) => LoadsTidily(d.items, newIds)
    case StartEditingOp(items, newIds, _, _, _) => OrdersTidily(items, newIds)
    case _ => true
  }

  /** Normalizing gives lines their ids and leaves their keys and quantities. */
  lemma NormalizeTidyIff(items: seq<Item>, newId: nat -> string)
    ensures Tidy(NormalizeItems(items, newId)) <==> LoadsTidily(items, newId)
  {
    var after := NormalizeItems(items, newId);
    forall i | 0 <= i < |items|
      ensures LineKey(after[i]) == LineKey(items[i]) && LineId(after[i]) == IdAfter(items[i], newId(i))
      ensures after[i].quantity == items[i].quantity
    {
      assert after[i] == NormalizeItem(items[i], newId(i));
      NormalizeIdsTwice(items[i].modifierOptionIds);
    }
    hide LineKey, LineId, IdAfter, NormalizeItems;
    if Tidy(after) {
      forall i, j | 0 <= i < j < |items|
        ensures LineKey(items[i]) != LineKey(items[j]) && IdAfter(items[i], newId(i)) != IdAfter(items[j], newId(j))
      {
        assert Apart(after[i], after[j]);
      }
      assert forall i :: 0 <= i < |items| ==> after[i].quantity > 0;
    }
    if LoadsTidily(items, newId) {
      assert forall i, j :: 0 <= i < j < |items| ==> Apart(after[i], after[j]);
    }
  }

  lemma OrderTidyIff(items: seq<OrderItem>, newId: nat -> string)
    ensures Tidy(LinesOf(items, newId)) <==> OrdersTidily(items, newId)
  {
    hide LineKey, LineId, OptionIds;
    var lines := LinesOf(items, newId);
    assert forall i :: 0 <= i < |items| ==> lines[i] == LineOf(items[i], newId(i)) && lines[i].quantity == items[i].quantity;
    if Tidy(lines) {
      forall i, j | 0 <= i < j < |items|
        ensures Apart(LineOf(items[i], newId(i)), LineOf(items[j], newId(j)))
      {
        assert Apart(lines[i], lines[j]);
      }
      assert forall i :: 0 <= i < |items| ==> lines[i].quantity > 0;
    }
  }

  /** An operation keeps positive quantities, one line per key and one line per id exactly when it acts tidily. */
  lemma StepTidyIff(s: Cart, op: Op)
    requires TidyCart(s)
    ensures TidyCart(Step(s, op)) <==> ActsTidily(s, op)
  {
    hide PersistCart, PersistEditing, Merge, Recount, Filter, LineKey, NormalizeItems, LinesOf, Tidy, MergesTidily, LoadsTidily, OrdersTidily;
    NothingTidy();
    match op
    case AddOp(menuItemId, c, id) => MergeTidyIff(ItemsFor(s, c), PlainItem(menuItemId, id));
    case AddConfiguredOp(menuItemId, c, quantity, notes, ids, id) =>
      MergeTidyIff(ItemsFor(s, c), ConfiguredItem(menuItemId, quantity, notes, ids, id));
    case HydrateOp(d, _, newIds) => NormalizeTidyIff(d.items, newIds);
    case StartEditingOp(items, newIds, _, _, _) => OrderTidyIff(items, newIds);
    case ClearOp =>
    case _ => ButtonKeepsTidy(s, op);
  }

  lemma NothingTidy()
    ensures Tidy([])
  {
  }

  lemma ButtonKeepsTidy(s: Cart, op: Op)
    requires TidyCart(s) && (op.IncrementOp? || op.DecrementOp? || op.RemoveOp?)
    ensures TidyCart(Step(s, op))
  {
    hide PersistCart, PersistEditing, Filter, LineKey;
    if s.draft.Some? {
      var items := s.draft.value.items;
      match op
      case IncrementOp(id) => RecountKeepsApart(items, id, 1);
      case DecrementOp(id) =>
        RecountKeepsApart(items, id, -1);
        FilterKeepsTidy(Recount(items, id, -1), HasUnits);
      case RemoveOp(id) => FilterKeepsTidy(items, OtherLine(id));
    }
  }

  /** Editing an order that lists one dish twice, with the same notes and options, gives two lines of one key. */
  lemma RepeatedDishEdited(s: Cart, item: OrderItem, otherId: Option<string>, newId: nat -> string,
                           guestSessionId: Option<string>, info: EditingInfo, c: Context)
    requires TidyCart(s)
    ensures !TidyCart(Step(s, StartEditingOp([item, item.(id := otherId)], newId, guestSessionId, info, c)))
  {
    var items := [item, item.(id := otherId)];
    assert !Apart(LineOf(items[0], newId(0)), LineOf(items[1], newId(1)));
    hide Step, LineOf, Apart;
    StepTidyIff(s, StartEditingOp(items, newId, guestSessionId, info, c));
  }

  ghost predicate AllActTidily(s: Cart, ops: seq<Op>) {
    ops == [] || (AllActTidily(s, Front(ops)) && ActsTidily(Run(s, Front(ops)), Last(ops)))
  }

  /** In every run of operations that act tidily the cart keeps positive quantities, one line per key and one
      line per id. */
  lemma {:induction false} RunKeepsTidy(s: Cart, ops: seq<Op>)
    requires TidyCart(s) && AllActTidily(s, ops)
    ensures TidyCart(Run(s, ops))
  {
    if ops != [] {
      RunKeepsTidy(s, Front(ops));
      StepTidyIff(Run(s, Front(ops)), Last(ops));
    }
  }

  // ---------- Reloading the page ----------

  /** A reload forgets everything but local storage; the table session then loads and hydrates. */
  function Reload(s: Cart, c: Context, newId: nat -> string): Cart {
    var blank := Cart(None, None, s.storage);
    var saved, info := LoadCart(s.storage, c), LoadEditing(s.storage, c);
    if (saved.Some? && saved.value.items != []) || info.Some? then
      Hydrate(blank, if saved.Some? then saved.value else Draft(c, None, []), info, newId)
    else blank
  }

  /** Lines as hydration leaves them: each with an id and normalized modifiers. */
  predicate NormalItem(i: Item) {
    i.cartLineId.Some? && i.modifierOptionIds == Some(UniqueSorted(i.modifierOptionIds))
  }

  lemma NormalizeItemIff(i: Item, newId: string)
    ensures NormalItem(NormalizeItem(i, newId))
    ensures NormalizeItem(i, newId) == i <==> NormalItem(i)
  {
    NormalizeIdsTwice(i.modifierOptionIds);
  }

  lemma NormalizeItemsIff(items: seq<Item>, newId: nat -> string)
    ensures NormalizeItems(items, newId) == items <==> forall i :: 0 <= i < |items| ==> NormalItem(items[i])
    ensures forall i :: 0 <= i < |items| ==> NormalItem(NormalizeItems(items, newId)[i])
  {
    hide UniqueSorted;
    forall i | 0 <= i < |items|
      ensures NormalItem(NormalizeItems(items, newId)[i])
      ensures NormalizeItems(items, newId)[i] == items[i] <==> NormalItem(items[i])
    {
      NormalizeItemIff(items[i], newId(i));
    }
  }

  /** After every run, a reload at the draft's table: nothing comes back if the draft is empty and no order is
      stored as being edited; otherwise the lines come back up to normalization (an empty draft without its guest
      session), and the draft is the same exactly when its lines were normal. The editing info that comes back
      is the stored one: the one before exactly when that was stored, and also one of an earlier visit.
      A second reload changes nothing any more. */
  lemma ReloadRestores(s: Cart, ops: seq<Op>, newId: nat -> string, newId': nat -> string)
    requires Mirrored(s) && Run(s, ops).draft.Some?
    ensures var before := Run(s, ops);
            var (d, c) := (before.draft.value, before.draft.value.context);
            var once := Reload(before, c, newId);
            && (d.items == [] && LoadEditing(before.storage, c).None? ==> once == Cart(None, None, before.storage))
            && (d.items == [] && LoadEditing(before.storage, c).Some? ==> once.draft == Some(Draft(c, None, [])))
            && (d.items != [] ==>
                  && once.draft == Some(d.(items := NormalizeItems(d.items, newId)))
                  && (once.draft == before.draft <==> forall i :: 0 <= i < |d.items| ==> NormalItem(d.items[i])))
            && once.editing == LoadEditing(before.storage, c)
            && (once.editing == before.editing <==> before.editing == LoadEditing(before.storage, c))
            && Reload(once, c, newId') == once
  {
    hide CartKey, EditingKey, UniqueSorted, NormalItem;
    RunMirrors(s, ops);
    var before := Run(s, ops);
    var (d, c) := (before.draft.value, before.draft.value.context);
    hide Run;
    if d.items == [] {
      ReloadEmpty(before, d, newId, newId');
    } else {
      var once := Reload(before, c, newId);
      NormalizeItemsIff(d.items, newId);
      ReloadedIsStored(before.storage, d, c, newId);
      NormalizeItemsIff(once.draft.value.items, newId');
      StoringAgain(once.storage, once.draft.value, once.editing, c);
    }
  }

  lemma ReloadEmpty(s: Cart, d: Draft, newId: nat -> string, newId': nat -> string)
    requires s.draft == Some(d) && d.items == [] && LoadCart(s.storage, d.context).None?
    ensures var (c, info) := (d.context, LoadEditing(s.storage, d.context));
            var once := Reload(s, c, newId);
            && (info.None? ==> once == Cart(None, None, s.storage))
            && (info.Some? ==> once.draft == Some(Draft(c, None, [])))
            && once.editing == info && Reload(once, c, newId') == once
  {
    var (c, info) := (d.context, LoadEditing(s.storage, d.context));
    KeysApart(c, c);
    hide CartKey, EditingKey;
    assert NormalizeItems([], newId) == [] && NormalizeItems([], newId') == [];
    if info.Some? {
      var bare := Draft(c, None, []);
      var once := Reload(s, c, newId);
      PersistCartEffect(s.storage, bare, c);
      PersistEditingEffect(PersistCart(s.storage, bare), info, c, c);
      assert once.storage == (s.storage - {CartKey(c)})[EditingKey(c) := EditingValue(info.value)];
      assert once.storage - {CartKey(c)} == once.storage;
      assert once.storage[EditingKey(c) := EditingValue(info.value)] == once.storage;
    }
  }

  /** What a reload shows is what it has stored. */
  lemma ReloadedIsStored(storage: Storage, d: Draft, c: Context, newId: nat -> string)
    requires LoadCart(storage, c) == Some(d) && d.items != [] && d.context == c
    ensures var once := Reload(Cart(None, None, storage), c, newId);
            && once.draft == Some(d.(items := NormalizeItems(d.items, newId)))
            && once.editing == LoadEditing(storage, c) == LoadEditing(once.storage, c)
            && LoadCart(once.storage, c) == once.draft
  {
    hide CartKey, EditingKey, NormalizeItem;
    var info := LoadEditing(storage, c);
    var n := d.(items := NormalizeItems(d.items, newId));
    PersistCartEffect(storage, n, c);
    PersistEditingEffect(PersistCart(storage, n), info, c, c);
  }

  /** Storing what is already stored leaves the storage as it is. */
  lemma StoringAgain(storage: Storage, d: Draft, info: Option<EditingInfo>, c: Context)
    requires LoadCart(storage, c) == Some(d) && d.items != [] && LoadEditing(storage, c) == info
    ensures PersistCart(storage, d) == storage
    ensures info.Some? ==> PersistEditing(storage, info, c) == storage
  {
  }
}

/** The store object. */
module CartObjects {
  import opened Options
  import opened Selections
  import opened Sequences
  import opened Spec = CartModel
  import Text

  class CartStore {
    var draft: Option<Draft>
    var editing: Option<EditingInfo>
    var storage: Storage

    constructor (storage: Storage)
      ensures State() == Cart(None, None, storage)
    {
      draft, editing, this.storage := None, None, storage;
    }

    function State(): Cart
      reads this
    {
      Cart(draft, editing, storage)
    }

    method PersistCartDraft(d: Draft)
      modifies this`storage
      ensures storage == PersistCart(old(storage), d)
    {
      var key := CartKey(d.context);
      if d.items == [] {
        storage := storage - {key};
        return;
      }
      storage := storage[key := CartValue(d)];
    }

    method AddItem(menuItemId: string, context: Context, newId: string)
      modifies this
      ensures State() == Spec.AddItem(old(State()), menuItemId, context, newId)
    {
      hide UniqueSorted, Text.Trim;
      PlainKey(menuItemId, newId);
      var currentItems := if draft.Some? && draft.value.context == context then draft.value.items else [];
      var existing := FindLine(currentItems, (menuItemId, "", []));
      var items := currentItems;
      if existing.Some? {
        items := items[existing.value := items[existing.value].(quantity := items[existing.value].quantity + 1)];
      } else {
        items := items + [Item(Some(newId), menuItemId, 1, None, Some([]))];
      }
      var nextDraft := Draft(context, None, items);
      PersistCartDraft(nextDraft);
      draft := Some(nextDraft);
    }

    method AddConfiguredItem(menuItemId: string, context: Context, quantity: int, notes: Option<string>,
                             ids: Option<seq<string>>, lineId: string)
      modifies this
      ensures State() == Spec.AddConfigured(old(State()), menuItemId, context, quantity, notes, ids, lineId)
    {
      hide UniqueSorted, Text.Trim;
      var currentItems := if draft.Some? && draft.value.context == context then draft.value.items else [];
      var normalized := ConfiguredItem(menuItemId, quantity, notes, ids, lineId);
      var existing := FindLine(currentItems, LineKey(normalized));
      var items := currentItems;
      if existing.Some? {
        items := items[existing.value := items[existing.value].(quantity := items[existing.value].quantity + quantity)];
      } else {
        items := items + [normalized];
      }
      var nextDraft := Draft(context, None, items);
      PersistCartDraft(nextDraft);
      draft := Some(nextDraft);
    }

    method IncrementItem(lineId: string)
      modifies this
      ensures State() == Spec.IncrementItem(old(State()), lineId)
    {
      if draft.None? {
        return;
      }
      var nextDraft := draft.value.(items := Recount(draft.value.items, lineId, 1));
      PersistCartDraft(nextDraft);
      draft := Some(nextDraft);
    }

    method DecrementItem(lineId: string)
      modifies this
      ensures State() == Spec.DecrementItem(old(State()), lineId)
    {
      if draft.None? {
        return;
      }
      var nextDraft := draft.value.(items := Filter(Recount(draft.value.items, lineId, -1), HasUnits));
      PersistCartDraft(nextDraft);
      draft := Some(nextDraft);
    }

    method RemoveItem(lineId: string)
      modifies this
      ensures State() == Spec.RemoveItem(old(State()), lineId)
    {
      if draft.None? {
        return;
      }
      var nextDraft := draft.value.(items := Filter(draft.value.items, OtherLine(lineId)));
      PersistCartDraft(nextDraft);
      draft := Some(nextDraft);
    }

    method Clear()
      modifies this
      ensures State() == Spec.Clear(old(State()))
    {
      if draft.Some? {
        storage := storage - {CartKey(draft.value.context)};
        storage := storage - {EditingKey(draft.value.context)};
      }
      draft, editing := None, None;
    }

    method Hydrate(d: Draft, info: Option<EditingInfo>, newId: nat -> string)
      modifies this
      ensures State() == Spec.Hydrate(old(State()), d, info, newId)
    {
      var normalizedDraft := d.(items := NormalizeItems(d.items, newId));
      PersistCartDraft(normalizedDraft);
      if info.Some? {
        storage := storage[EditingKey(d.context) := EditingValue(info.value)];
      }
      draft, editing := Some(normalizedDraft), info;
    }

    method StartEditingOrder(items: seq<OrderItem>, newId: nat -> string, guestSessionId: Option<string>, info: EditingInfo,
                             context: Context)
      modifies this
      ensures State() == Spec.StartEditing(old(State()), items, newId, guestSessionId, info, context)
    {
      var nextDraft := Draft(context, guestSessionId, LinesOf(items, newId));
      PersistCartDraft(nextDraft);
      storage := storage[EditingKey(context) := EditingValue(info)];
      draft, editing := Some(nextDraft), Some(info);
    }
  }

  /** The key of a line without notes and modifiers. */
  lemma PlainKey(menuItemId: string, id: string)
    ensures LineKey(PlainItem(menuItemId, id)) == (menuItemId, "", [])
  {
    assert Text.Trim("") == "";
    var none: seq<string> := [];
    assert UniqueSorted(Some(none)) == [];
  }
}
