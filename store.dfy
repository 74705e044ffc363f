/** The item store: `StoreManager` keeps a dictionary from item id to item
    details, `AddItemModal` validates an administrator's new item, and
    `StoreView` lists the items sorted by name, five to a page, with buy and
    navigation buttons. A purchase is paid from the shared coin ledger. */
module Store {
  import opened Common
  import opened Economy

  /** The details dictionary `AddItemModal` writes: name, cost, description,
      type and data (None when the data field was left empty). */
  datatype Item = Item(name: string, cost: int, description: string, itemType: string, data: Option<string>)

  /** The keys of STORE_ITEM_TYPES. */
  const ItemTypes: set<string> := {"role", "color", "badge", "nickname"}

  /** The `requires_data` flag of each configured item type. */
  predicate RequiresData(itemType: string) {
    itemType == "role" || itemType == "color" || itemType == "badge"
  }

  // ---------------------------------------------------------------------------
  // StoreManager
  // ---------------------------------------------------------------------------

  /** `store_data` after `add_item(id, item)`: an id already present is
      refused and nothing changes; otherwise exactly that key is added. */
  function Added(data: map<string, Item>, id: string, item: Item): (r: map<string, Item>)
    ensures id in data ==> r == data
    ensures id !in data ==> r.Keys == data.Keys + {id} && r[id] == item
    ensures forall k :: k in data ==> k in r && r[k] == data[k]
  {
    if id in data then data else data[id := item]
  }

  /** `store_data` after `store_data.pop(id, None)`: the key is gone and every
      other entry is as it was. */
  function Removed(data: map<string, Item>, id: string): (r: map<string, Item>)
    ensures id !in r && r.Keys == data.Keys - {id}
    ensures id !in data ==> r == data
    ensures forall k :: k in r ==> r[k] == data[k]
  {
    data - {id}
  }

  /** `store_data.get(id)`. */
  function Lookup(data: map<string, Item>, id: string): (r: Option<Item>)
    ensures r.Some? <==> id in data
    ensures r.Some? ==> r.value == data[id]
  {
    if id in data then Some(data[id]) else None
  }

  /** Removing an item that was just added restores the store. */
  lemma AddThenRemove(data: map<string, Item>, id: string, item: Item)
    requires id !in data
    ensures Removed(Added(data, id, item), id) == data
    ensures Lookup(Added(data, id, item), id) == Some(item)
  {
    assert Removed(Added(data, id, item), id).Keys == data.Keys;
  }

  class StoreManager {
    var storeData: map<string, Item>

    /** `__init__` with `_load_store`: `stored` is the decoded file, or None
        when the file is missing or cannot be decoded. */
    constructor(stored: Option<map<string, Item>>)
      ensures storeData == if stored.Some? then stored.value else map[]
    {
      storeData := if stored.Some? then stored.value else map[];
    }

    /** `add_item`; the save to disk is not modelled. */
    method AddItem(id: string, item: Item) returns (added: bool)
      modifies this
      ensures added <==> id !in old(storeData)
      ensures storeData == Added(old(storeData), id, item)
    {
      if id in storeData {
        return false;
      }
      storeData := storeData[id := item];
      added := true;
    }

    /** `remove_item`: the removed details, or None for an unknown id. */
    method RemoveItem(id: string) returns (removed: Option<Item>)
      modifies this
      ensures removed == Lookup(old(storeData), id)
      ensures storeData == Removed(old(storeData), id)
    {
      removed := if id in storeData then Some(storeData[id]) else None;
      storeData := storeData - {id};
    }

    /** `get_item`. */
    function GetItem(id: string): (r: Option<Item>)
      reads this
      ensures r == Lookup(storeData, id)
    {
      if id in storeData then Some(storeData[id]) else None
    }

    /** `get_all_items`: the returned map is a value, so later changes to
        the store cannot alter it. */
    method GetAllItems() returns (all: map<string, Item>)
      ensures all == storeData
    {
      all := storeData;
    }
  }

  // ---------------------------------------------------------------------------
  // AddItemModal.on_submit
  // ---------------------------------------------------------------------------

  datatype AddError =
    | CostNotNumber
    | NegativeCost
    | InvalidType
    | DataRequired(itemType: string)
    | BadRoleId
    | BadColor
    | BadBadgeUrl
    | AddFailed

  /** The colour check as written accepts any seven-character string that
      starts with `#` without looking at the digits; the corrected check
      always reads the digits as hexadecimal. */
  datatype ColorRule = AsWritten | Strict

  predicate ColorAccepted(rule: ColorRule, data: string) {
    match rule
    case AsWritten => (StartsWith(data, "#") && |data| == 7) || ParseHex(LStrip(data, '#')).Some?
    case Strict => ParseHex(LStrip(data, '#')).Some?
  }

  /** The item data field: empty input stands for None. */
  function DataField(text: string): Option<string> {
    if text == "" then None else Some(text)
  }

  /** The validation chain of `on_submit`, in the order the code applies it. */
  function ValidateItem(rule: ColorRule, name: string, costText: string, description: string,
                        typeText: string, dataText: string): (r: Result<Item, AddError>)
    ensures ParseInt(costText).None? ==> r == Err(CostNotNumber)
    ensures ParseInt(costText).Some? && ParseInt(costText).value < 0 ==> r == Err(NegativeCost)
    ensures ParseInt(costText).Some? && ParseInt(costText).value >= 0 && LowerAscii(typeText) !in ItemTypes
            ==> r == Err(InvalidType)
    ensures ParseInt(costText).Some? && ParseInt(costText).value >= 0 && LowerAscii(typeText) in ItemTypes
            && RequiresData(LowerAscii(typeText)) && dataText == ""
            ==> r == Err(DataRequired(LowerAscii(typeText)))
    ensures r.Ok? ==> Some(r.value.cost) == ParseInt(costText) && r.value.cost >= 0
    ensures r.Ok? ==> r.value.name == name && r.value.description == description
    ensures r.Ok? ==> r.value.itemType == LowerAscii(typeText) && r.value.itemType in ItemTypes
    ensures r.Ok? && RequiresData(r.value.itemType) ==> r.value.data.Some?
    ensures r.Ok? && r.value.itemType != "color" ==> r.value.data == DataField(dataText)
    ensures r.Ok? && r.value.itemType == "role" ==> ParseInt(r.value.data.value).Some?
    ensures r.Ok? && r.value.itemType == "badge" ==>
              StartsWith(r.value.data.value, "http://") || StartsWith(r.value.data.value, "https://")
    ensures r.Ok? && r.value.itemType == "color" ==>
              ColorAccepted(rule, dataText) && r.value.data == Some(LStrip(dataText, '#'))
    ensures r.Err? && r.error == BadColor ==> !ColorAccepted(rule, dataText)
    ensures r != Err(AddFailed)
  {
    var itemType := LowerAscii(typeText);
    var data := DataField(dataText);
    var cost := ParseInt(costText);
    if cost.None? then Err(CostNotNumber)
    else if cost.value < 0 then Err(NegativeCost)
    else if itemType !in ItemTypes then Err(InvalidType)
    else if RequiresData(itemType) && data.None? then Err(DataRequired(itemType))
    else if itemType == "role" && ParseInt(data.value).None? then Err(BadRoleId)
    else if itemType == "color" then
      if ColorAccepted(rule, data.value) then Ok(Item(name, cost.value, description, itemType, Some(LStrip(data.value, '#'))))
      else Err(BadColor)
    else if itemType == "badge" && !(StartsWith(data.value, "http://") || StartsWith(data.value, "https://")) then
      Err(BadBadgeUrl)
    else Ok(Item(name, cost.value, description, itemType, data))
  }

  /** The id generated for a new item: `str(random.randint(10000, 99999))`
      drawn again while it names an existing item. `draws` is the sequence of
      random numbers, which eventually yields a free id. */
  method GenerateId(data: map<string, Item>, draws: seq<int>) returns (id: string)
    requires forall k :: 0 <= k < |draws| ==> 10000 <= draws[k] <= 99999
    requires exists k :: 0 <= k < |draws| && IntToDecimal(draws[k]) !in data
    ensures id !in data
    ensures AllDigits(id) && ParseInt(id).Some? && 10000 <= ParseInt(id).value <= 99999
    ensures exists k :: 0 <= k < |draws| && id == IntToDecimal(draws[k])
              && forall j :: 0 <= j < k ==> IntToDecimal(draws[j]) in data
  {
    ghost var free :| 0 <= free < |draws| && IntToDecimal(draws[free]) !in data;
    var i := 0;
    while IntToDecimal(draws[i]) in data
      invariant 0 <= i <= free
      invariant forall j :: 0 <= j < i ==> IntToDecimal(draws[j]) in data
      decreases free - i
    {
      i := i + 1;
    }
    id := IntToDecimal(draws[i]);
    IntToDecimalParses(draws[i]);
  }

  class AddItemModal {
    const store: StoreManager

    constructor(store: StoreManager)
      ensures this.store == store
    {
      this.store := store;
    }

    /** `on_submit`: validate the fields, make an unused id and add the
        item; `rule` selects the colour check as written or corrected. */
    method OnSubmit(rule: ColorRule, name: string, costText: string, description: string,
                    typeText: string, dataText: string, draws: seq<int>)
      returns (r: Result<string, AddError>)
      requires forall k :: 0 <= k < |draws| ==> 10000 <= draws[k] <= 99999
      requires exists k :: 0 <= k < |draws| && IntToDecimal(draws[k]) !in store.storeData
      modifies store
      ensures var v := ValidateItem(rule, name, costText, description, typeText, dataText);
              if v.Err? then r == Err(v.error) && store.storeData == old(store.storeData)
              else r.Ok? && r.value !in old(store.storeData)
                   && ParseInt(r.value).Some? && 10000 <= ParseInt(r.value).value <= 99999
                   && store.storeData == old(store.storeData)[r.value := v.value]
    {
      var v := ValidateItem(rule, name, costText, description, typeText, dataText);
      if v.Err? {
        return Err(v.error);
      }
      var id := GenerateId(store.storeData, draws);
      var added := store.AddItem(id, v.value);
      if !added {
        return Err(AddFailed);
      }
      r := Ok(id);
    }
  }

  // ---------------------------------------------------------------------------
  // Applying a purchased item
  // ---------------------------------------------------------------------------

  /** `str(item_data)`, where a missing value prints as "None". */
  function DataText(data: Option<string>): string {
    if data.Some? then data.value else "None"
  }

  /** The boolean `apply_item_effect` returns. `discordOk` stands for every
      outcome decided on Discord's side: the role exists, the member lacks it,
      and the role and message calls succeed. */
  function EffectApplied(item: Item, discordOk: bool): (ok: bool)
    ensures item.itemType == "role" && ParseInt(DataText(item.data)).None? ==> !ok
    ensures item.itemType == "color" && ParseHex(DataText(item.data)).None? ==> !ok
    ensures item.itemType !in ItemTypes ==> !ok
    ensures item.itemType == "nickname" ==> ok
  {
    if item.itemType == "role" then item.data.Some? && ParseInt(item.data.value).Some? && discordOk
    else if item.itemType == "color" then ParseHex(DataText(item.data)).Some? && discordOk
    else if item.itemType == "badge" then discordOk
    else item.itemType == "nickname"
  }

  /** Every item the corrected validation accepts can be applied whenever
      Discord cooperates: no stored value makes the effect raise. */
  lemma ValidatedItemsApply(name: string, costText: string, description: string, typeText: string, dataText: string)
    requires ValidateItem(Strict, name, costText, description, typeText, dataText).Ok?
    ensures EffectApplied(ValidateItem(Strict, name, costText, description, typeText, dataText).value, true)
  {
  }

  /** The text facts behind the "#zzzzzz" example. */
  lemma TenParses()
    ensures ParseInt("10") == Some(10)
  {
    StripNoSpace("10");
    assert NumeralValue("1", 10) == 1;
  }

  lemma ColorLower()
    ensures LowerAscii("color") == "color"
  {
  }

  lemma BadColorStripped()
    ensures StartsWith("#zzzzzz", "#") && LStrip("#zzzzzz", '#') == "zzzzzz"
  {
    assert LStrip("zzzzzz", '#') == "zzzzzz";
  }

  lemma BadColorNotHex()
    ensures ParseHex("zzzzzz") == None
  {
    StripNoSpace("zzzzzz");
    assert !IsHexDigit("zzzzzz"[0]);
  }

  /** As written, "#zzzzzz" passes the colour check because it starts with
      `#` and has seven characters, and "zzzzzz" is stored; the corrected
      check refuses it. */
  lemma BadColorAcceptedAsWritten()
    ensures ValidateItem(AsWritten, "Red", "10", "A red name", "color", "#zzzzzz")
            == Ok(Item("Red", 10, "A red name", "color", Some("zzzzzz")))
    ensures ValidateItem(Strict, "Red", "10", "A red name", "color", "#zzzzzz") == Err(BadColor)
  {
    TenParses();
    ColorLower();
    BadColorStripped();
    BadColorNotHex();
    ColorItemValidates(AsWritten, "Red", "10", "A red name", "color", "#zzzzzz", 10);
    ColorItemValidates(Strict, "Red", "10", "A red name", "color", "#zzzzzz", 10);
  }

  /** A colour item with a readable, non-negative cost is stored iff its data passes the colour check. */
  lemma ColorItemValidates(rule: ColorRule, name: string, costText: string, description: string,
                           typeText: string, dataText: string, cost: int)
    requires ParseInt(costText) == Some(cost) && cost >= 0 && LowerAscii(typeText) == "color" && dataText != ""
    ensures ValidateItem(rule, name, costText, description, typeText, dataText)
            == if ColorAccepted(rule, dataText) then Ok(Item(name, cost, description, "color", Some(LStrip(dataText, '#'))))
               else Err(BadColor)
  {
    assert "color" in ItemTypes;
  }

  // ---------------------------------------------------------------------------
  // StoreView: ordering, pages and buttons
  // ---------------------------------------------------------------------------

  /** Python's `<` on strings: lexicographic by code point, a proper prefix
      first. */
  predicate NameLess(a: string, b: string)
    decreases |a|
  {
    b != [] && (a == [] || a[0] < b[0] || (a[0] == b[0] && NameLess(a[1..], b[1..])))
  }

  lemma {:induction false} NameLessAsymmetric(a: string, b: string)
    requires NameLess(a, b)
    ensures !NameLess(b, a)
    decreases |a|
  {
    if a != [] && a[0] == b[0] {
      NameLessAsymmetric(a[1..], b[1..]);
    }
  }

  type Entry = (string, Item)

  /** Non-decreasing by item name, as `sorted(..., key=name)` leaves it. */
  predicate SortedByName(s: seq<Entry>) {
    forall i :: 0 < i < |s| ==> !NameLess(s[i].1.name, s[i - 1].1.name)
  }

  /** Place `x` after every entry whose name is smaller. */
  function Insert(x: Entry, s: seq<Entry>): (r: seq<Entry>)
    ensures |r| == |s| + 1 && multiset(r) == multiset(s) + multiset{x}
    ensures r[0] == x || (s != [] && r[0] == s[0])
    ensures SortedByName(s) ==> SortedByName(r)
  {
    if s == [] || !NameLess(s[0].1.name, x.1.name) then [x] + s
    else
      NameLessAsymmetric(s[0].1.name, x.1.name);
      assert s == [s[0]] + s[1..];
      var rest := Insert(x, s[1..]);
      ConsSorted(s[0], rest);
      [s[0]] + rest
  }

  /** An entry no greater than the head of a sorted list can go in front. */
  lemma ConsSorted(e: Entry, rest: seq<Entry>)
    ensures SortedByName(rest) && (rest != [] ==> !NameLess(rest[0].1.name, e.1.name)) ==> SortedByName([e] + rest)
  {
    if SortedByName(rest) && (rest != [] ==> !NameLess(rest[0].1.name, e.1.name)) {
      var r := [e] + rest;
      forall i | 0 < i < |r| ensures !NameLess(r[i].1.name, r[i - 1].1.name) {
        if i > 1 {
          assert r[i] == rest[i - 1] && r[i - 1] == rest[i - 2];
        }
      }
    }
  }

  /** `sorted(all_items.items(), key=lambda item: item[1].get('name', ''))`. */
  function SortByName(s: seq<Entry>): (r: seq<Entry>)
    ensures SortedByName(r)
    ensures |r| == |s| && multiset(r) == multiset(s)
  {
    if s == [] then []
    else
      assert s == [s[0]] + s[1..];
      Insert(s[0], SortByName(s[1..]))
  }

  /** `listing` is `store_data.items()`: every entry of the map once. */
  predicate IsListing(listing: seq<Entry>, data: map<string, Item>) {
    && (forall i :: 0 <= i < |listing| ==> listing[i].0 in data && data[listing[i].0] == listing[i].1)
    && (forall id :: id in data ==> exists i :: 0 <= i < |listing| && listing[i].0 == id)
    && (forall i, j :: 0 <= i < j < |listing| ==> listing[i].0 != listing[j].0)
  }

  /** Every entry of the sorted list is an entry of the store. */
  lemma SortedEntriesInStore(listing: seq<Entry>, data: map<string, Item>, i: int)
    requires IsListing(listing, data) && 0 <= i < |listing|
    ensures SortByName(listing)[i].0 in data && data[SortByName(listing)[i].0] == SortByName(listing)[i].1
  {
    var sorted := SortByName(listing);
    assert sorted[i] in multiset(sorted);
    var j :| 0 <= j < |listing| && listing[j] == sorted[i];
  }

  /** Every item of the store appears in the sorted list. */
  lemma StoreEntriesSorted(listing: seq<Entry>, data: map<string, Item>, id: string)
    requires IsListing(listing, data) && id in data
    ensures exists i :: 0 <= i < |listing| && SortByName(listing)[i] == (id, data[id])
  {
    var sorted := SortByName(listing);
    var j :| 0 <= j < |listing| && listing[j].0 == id;
    assert listing[j] in multiset(sorted);
  }

  /** `items[start:end]` with `start = page * per_page`, clamped as Python
      slicing clamps. */
  function PageSlice<T>(items: seq<T>, page: nat, perPage: nat): (r: seq<T>)
    ensures |r| == if page * perPage >= |items| then 0 else Min(perPage, |items| - page * perPage)
    ensures forall k :: 0 <= k < |r| ==> page * perPage + k < |items| && r[k] == items[page * perPage + k]
  {
    var start := page * perPage;
    if start >= |items| then [] else items[start..Min(start + perPage, |items|)]
  }

  function Min(a: int, b: int): int { if a <= b then a else b }

  /** Every item is on page `i / per_page`, at position `i % per_page`. */
  lemma ItemOnItsPage<T>(items: seq<T>, perPage: nat, i: nat)
    requires perPage > 0 && i < |items|
    ensures i % perPage < |PageSlice(items, i / perPage, perPage)|
    ensures PageSlice(items, i / perPage, perPage)[i % perPage] == items[i]
  {
    var p := i / perPage;
    assert p * perPage + i % perPage == i;
  }

  /** The buttons of a rendered page: the buy buttons' custom ids and
      whether Previous and Next are shown. */
  datatype Buttons = Buttons(buyIds: seq<string>, previous: bool, next: bool)

  const BuyPrefix: string := "buy_"
  const PrevPage: string := "prev_page"
  const NextPage: string := "next_page"

  /** The buttons `_get_page_embed_and_buttons` adds. An empty store shows
      no button at all; otherwise one buy button per item on the page,
      Previous when not on the first page and Next when items follow. */
  function Render(items: seq<Entry>, page: nat, perPage: nat): (r: Buttons)
    ensures items == [] ==> r == Buttons([], false, false)
    ensures items != [] ==> (r.previous <==> page > 0) && (r.next <==> page * perPage + perPage < |items|)
    ensures items != [] ==> |r.buyIds| == |PageSlice(items, page, perPage)|
    ensures items != [] ==> forall k :: 0 <= k < |r.buyIds| ==>
              r.buyIds[k] == BuyPrefix + PageSlice(items, page, perPage)[k].0
  {
    if items == [] then Buttons([], false, false)
    else
      var shown := PageSlice(items, page, perPage);
      Buttons(seq(|shown|, k requires 0 <= k < |shown| => BuyPrefix + shown[k].0),
              page > 0, page * perPage + perPage < |items|)
  }

  /** `s.replace(pat, "")`: every non-overlapping occurrence, left to right. */
  function RemoveAll(s: string, pat: string): (r: string)
    requires pat != []
    ensures |r| <= |s|
    decreases |s|
  {
    if s == [] then []
    else if StartsWith(s, pat) then RemoveAll(s[|pat|..], pat)
    else [s[0]] + RemoveAll(s[1..], pat)
  }

  lemma {:induction false} RemoveAllDigits(s: string, pat: string)
    requires pat != [] && !IsDigit(pat[0]) && AllDigits(s)
    ensures RemoveAll(s, pat) == s
    decreases |s|
  {
    if s != [] {
      RemoveAllDigits(s[1..], pat);
    }
  }

  /** A buy button of a numeric item id resolves back to that id. */
  lemma BuyButtonResolves(id: string)
    requires AllDigits(id)
    ensures RemoveAll(BuyPrefix + id, BuyPrefix) == id
  {
    assert StartsWith(BuyPrefix + id, BuyPrefix);
    assert (BuyPrefix + id)[|BuyPrefix|..] == id;
    RemoveAllDigits(id, BuyPrefix);
  }

  /** The page a view may be on: the first, or one that starts inside the list. */
  predicate PageInRange(page: nat, perPage: nat, count: nat) {
    page == 0 || page * perPage < count
  }

  /** `current_page` after `nav_button_callback`. */
  function NavPage(page: nat, perPage: nat, count: nat, customId: string): (q: nat)
    ensures PageInRange(page, perPage, count) ==> PageInRange(q, perPage, count)
    ensures q == page || q == page + 1 || q + 1 == page
  {
    if customId == PrevPage && page > 0 then
      assert (page - 1) * perPage == page * perPage - perPage;
      page - 1
    else if customId == NextPage && (page + 1) * perPage < count then page + 1
    else page
  }

  /** A navigation press moves the page exactly when the pressed button is
      shown on the rendered page. */
  lemma NavFollowsButtons(items: seq<Entry>, page: nat, perPage: nat, customId: string)
    requires items != []
    ensures customId == NextPage ==>
              (NavPage(page, perPage, |items|, customId) == page + 1 <==> Render(items, page, perPage).next)
    ensures customId == PrevPage ==>
              (NavPage(page, perPage, |items|, customId) + 1 == page <==> Render(items, page, perPage).previous)
    ensures customId != NextPage && customId != PrevPage ==> NavPage(page, perPage, |items|, customId) == page
  {
    assert (page + 1) * perPage == page * perPage + perPage;
  }

  /** On a page within range there is always something to show. */
  lemma InRangePageNotEmpty<T>(items: seq<T>, page: nat, perPage: nat)
    requires perPage > 0 && items != [] && PageInRange(page, perPage, |items|)
    ensures PageSlice(items, page, perPage) != []
  {
  }

  // ---------------------------------------------------------------------------
  // Purchases
  // ---------------------------------------------------------------------------

  datatype Purchase = ItemGone | Insufficient(balance: int, cost: int) | Bought(applied: bool)

  /** The outcome of pressing the buy button of item `id`. */
  function PurchaseReply(data: map<string, Item>, balance: int, id: string, discordOk: bool): (r: Purchase)
    ensures r == ItemGone <==> id !in data
    ensures r.Insufficient? <==> id in data && balance < data[id].cost
    ensures r.Bought? <==> id in data && data[id].cost <= balance
    ensures r.Bought? ==> r.applied == EffectApplied(data[id], discordOk)
  {
    if id !in data then ItemGone
    else if balance < data[id].cost then Insufficient(balance, data[id].cost)
    else Bought(EffectApplied(data[id], discordOk))
  }

  /** As written, a colour item accepted with "#zzzzzz" is paid for and
      then fails to apply. */
  lemma BadColorChargedAsWritten(data: map<string, Item>, id: string, balance: int)
    requires id in data && data[id] == Item("Red", 10, "A red name", "color", Some("zzzzzz")) && balance >= 10
    ensures PurchaseReply(data, balance, id, true) == Bought(false)
  {
    BadColorNotHex();
  }

  class StoreView {
    const store: StoreManager
    const economy: EconomyManager
    const itemsPerPage: nat
    var currentPage: nat
    var items: seq<Entry>

    /** `__init__` with `_update_items_list`; `listing` is the store's
        `items()` in dictionary order. */
    constructor(store: StoreManager, economy: EconomyManager, itemsPerPage: nat, listing: seq<Entry>)
      requires IsListing(listing, store.storeData)
      ensures this.store == store && this.economy == economy && this.itemsPerPage == itemsPerPage
      ensures currentPage == 0 && items == SortByName(listing)
    {
      this.store := store;
      this.economy := economy;
      this.itemsPerPage := itemsPerPage;
      currentPage := 0;
      items := SortByName(listing);
    }

    /** `_update_items_list`. The page is left as it was. */
    method UpdateItemsList(listing: seq<Entry>)
      requires IsListing(listing, store.storeData)
      modifies this
      ensures items == SortByName(listing) && currentPage == old(currentPage)
    {
      items := SortByName(listing);
    }

    /** The buttons of the current page. */
    function CurrentButtons(): (r: Buttons)
      reads this
      ensures r == Render(items, currentPage, itemsPerPage)
    {
      Render(items, currentPage, itemsPerPage)
    }

    /** `nav_button_callback`. */
    method NavPressed(customId: string)
      modifies this
      ensures currentPage == NavPage(old(currentPage), itemsPerPage, |items|, customId)
      ensures items == old(items)
    {
      if customId == PrevPage && currentPage > 0 {
        currentPage := currentPage - 1;
      } else if customId == NextPage && (currentPage + 1) * itemsPerPage < |items| {
        currentPage := currentPage + 1;
      }
    }

    /** `buy_button_callback` for the user `user`. An unknown item refreshes
        the list from `listing`; too small a balance changes nothing;
        otherwise exactly the cost is taken before the effect is applied,
        whatever the effect's outcome. */
    method BuyPressed(user: int, customId: string, discordOk: bool, listing: seq<Entry>)
      returns (r: Purchase)
      requires IsListing(listing, store.storeData)
      modifies this, economy
      ensures var id := RemoveAll(customId, BuyPrefix);
              r == PurchaseReply(store.storeData, old(economy.GetBalance(user)), id, discordOk)
      ensures r == ItemGone ==> items == SortByName(listing) && economy.economyData == old(economy.economyData)
      ensures r.Insufficient? ==> items == old(items) && economy.economyData == old(economy.economyData)
      ensures r.Bought? ==> (items == old(items)
              && economy.economyData == Stake(old(economy.economyData), economy.defaultBalance, user,
                                              store.storeData[RemoveAll(customId, BuyPrefix)].cost)
              && economy.GetBalance(user) >= 0)
      ensures currentPage == old(currentPage)
    {
      var id := RemoveAll(customId, BuyPrefix);
      var item := store.GetItem(id);
      if item.None? {
        UpdateItemsList(listing);
        return ItemGone;
      }
      var balance := economy.GetBalance(user);
      var cost := item.value.cost;
      if balance < cost {
        return Insufficient(balance, cost);
      }
      var _ := economy.UpdateBalance(user, -cost);
      r := Bought(EffectApplied(item.value, discordOk));
    }
  }
}
