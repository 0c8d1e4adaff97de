/**
 * The dashboard's list rules (app.js): the chart interval tables, the
 * `SYMBOL[:width]` entries of the saved stock list, adding, removing and
 * reordering entries, and the saved list of collapsed cards.
 */
module Dashboard {
  import opened Wrappers
  import opened Seqs
  import opened Text

  // ----- Chart ranges and intervals -----

  const Intervals: seq<string> := ["1d", "1wk", "1mo"]

  /** `getDefaultInterval`: the interval a range opens with. */
  function DefaultInterval(range: string): (i: string)
    ensures i in Intervals
    ensures range == "5y" ==> i == "1wk"
    ensures range == "10y" || range == "max" ==> i == "1mo"
    ensures range !in {"5y", "10y", "max"} ==> i == "1d"
  {
    match range
    case "6mo" => "1d"
    case "1y" => "1d"
    case "5y" => "1wk"
    case "10y" => "1mo"
    case "max" => "1mo"
    case _ => "1d"
  }

  /** `getValidIntervals`: the intervals the provider serves for a range. */
  function ValidIntervals(range: string): (vs: seq<string>)
    ensures Distinct(vs)
    ensures forall v :: v in vs ==> v in Intervals
    ensures "1mo" in vs
    ensures "1d" in vs <==> range != "10y" && range != "max"
    ensures "1wk" in vs <==> range != "max"
  {
    match range
    case "6mo" => ["1d", "1wk", "1mo"]
    case "1y" => ["1d", "1wk", "1mo"]
    case "5y" => ["1d", "1wk", "1mo"]
    case "10y" => ["1wk", "1mo"]
    case "max" => ["1mo"]
    case _ => ["1d", "1wk", "1mo"]
  }

  /** A range always opens on an interval it allows. */
  lemma DefaultIsValid(range: string)
    ensures DefaultInterval(range) in ValidIntervals(range)
  {
  }

  // ----- Stock entries -----

  /** A parsed entry of the stock list. */
  datatype StockEntry = StockEntry(symbol: string, width: int)

  /** `parseInt(text) || 1`: NaN and zero fall back to 1. */
  function WidthOr1(p: Option<int>): (w: int)
    ensures w != 0
    ensures p.Some? && p.value != 0 ==> w == p.value
  {
    if p.Some? && p.value != 0 then p.value else 1
  }

  /** `parseStockEntry`: `SYMBOL` or `SYMBOL:width`, the width not clamped. */
  function ParseStockEntry(entry: string): (e: StockEntry)
    ensures ':' !in e.symbol && e.width != 0
    ensures ':' !in entry ==> e == StockEntry(entry, 1)
    ensures ':' in entry ==> e.symbol + [':'] <= entry
    ensures ':' in entry ==>
      var n := ParseInt(SecondField(entry));
      && (n.Some? && n.value != 0 ==> e.width == n.value)
      && (n.None? || n.value == 0 ==> e.width == 1)
  {
    if ':' in entry then
      var symbol := FirstField(entry);
      assert symbol + [':'] == entry[..|symbol| + 1];
      StockEntry(symbol, WidthOr1(ParseInt(SecondField(entry))))
    else StockEntry(entry, 1)
  }

  /** `Math.max(1, Math.min(width, 6))`. */
  function ClampWidth(w: int): (c: int)
    ensures 1 <= c <= 6
    ensures 1 <= w <= 6 ==> c == w
    ensures w < 1 ==> c == 1
    ensures w > 6 ==> c == 6
  {
    if w < 1 then 1 else if w > 6 then 6 else w
  }

  /** The entry `addStock` stores: the bare symbol, or `SYMBOL:width` when wider than 1. */
  function FormatEntry(symbol: string, width: int): string {
    if width > 1 then symbol + ":" + DecimalString(width) else symbol
  }

  /** Every stored entry parses back to the symbol and width it was written from. */
  lemma EntryRoundTrip(symbol: string, width: int)
    requires ':' !in symbol && 1 <= width
    ensures ParseStockEntry(FormatEntry(symbol, width)) == StockEntry(symbol, width)
  {
    if width > 1 {
      var entry := FormatEntry(symbol, width);
      var digits := DecimalString(width);
      assert entry == symbol + [':'] + digits;
      assert IndexOf(entry, ':') == |symbol| by {
        assert entry[|symbol|] == ':';
        assert forall j :: 0 <= j < |symbol| ==> entry[j] == symbol[j];
      }
      assert FirstField(entry) == symbol;
      assert entry[IndexOf(entry, ':') + 1..] == digits;
      assert ':' !in digits;
      assert IndexOf(digits, ':') == |digits|;
      assert SecondField(entry) == digits;
      ParseIntDecimal(width);
    }
  }

  /** The symbol of an entry is everything before its first colon. */
  lemma SymbolBeforeColon(entry: string, k: nat)
    requires k < |entry| && entry[k] == ':' && ':' !in entry[..k]
    ensures ParseStockEntry(entry).symbol == entry[..k]
  {
    var sym := ParseStockEntry(entry).symbol;
    assert sym + [':'] <= entry;
    assert entry[|sym|] == ':';
  }

  /** The symbols of the entries, in list order. */
  function Symbols(list: seq<string>): (syms: seq<string>)
    ensures |syms| == |list|
    ensures forall i :: 0 <= i < |list| ==> syms[i] == ParseStockEntry(list[i]).symbol
  {
    seq(|list|, i requires 0 <= i < |list| => ParseStockEntry(list[i]).symbol)
  }

  /** At most one entry per symbol, whatever its width. */
  predicate UniqueSymbols(list: seq<string>) {
    Distinct(Symbols(list))
  }

  // ----- Adding -----

  /** Why `addStock` refuses an input. */
  datatype AddError = EmptyInput | AlreadyAdded | NotFound

  /**
   * The symbol and width `addStock` reads from the trimmed, upper-cased
   * input: split at the first colon, the width `parseInt || 1` and clamped
   * to 1..6.
   */
  function SplitInput(input: string): (e: StockEntry)
    ensures ':' !in e.symbol && 1 <= e.width <= 6
    ensures ':' !in input ==> e == StockEntry(input, 1)
    ensures ':' in input ==> e.symbol + [':'] <= input
    ensures ':' in input ==>
      var n := ParseInt(SecondField(input));
      && (n.Some? && 1 <= n.value <= 6 ==> e.width == n.value)
      && (n.Some? && 6 < n.value ==> e.width == 6)
      && (n.None? || n.value < 1 ==> e.width == 1)
  {
    if ':' in input then
      var symbol := FirstField(input);
      assert symbol + [':'] == input[..|symbol| + 1];
      StockEntry(symbol, ClampWidth(WidthOr1(ParseInt(SecondField(input)))))
    else StockEntry(input, 1)
  }

  /** What `addStock` reads from the input box: the trimmed, upper-cased text, split. */
  function ReadInput(raw: string): (e: StockEntry)
    ensures ':' !in e.symbol && 1 <= e.width <= 6
    ensures forall i :: 0 <= i < |e.symbol| ==> !('a' <= e.symbol[i] <= 'z')
  {
    SplitInput(Upper(Trim(raw)))
  }

  /** A width that is missing, not a number, zero or negative is read as 1. */
  lemma WidthFallsBackToOne(raw: string)
    ensures var input := Upper(Trim(raw));
      (':' !in input || ParseInt(SecondField(input)).None? || ParseInt(SecondField(input)).value <= 0)
      ==> ReadInput(raw).width == 1
  {
  }

  /** An entry as stored reads back, typed into the input box, as the symbol and width it stores. */
  lemma ReadFormattedEntry(symbol: string, width: int)
    requires ':' !in symbol && 1 <= width <= 6
    requires Trim(symbol) == symbol
    requires forall i :: 0 <= i < |symbol| ==> !('a' <= symbol[i] <= 'z')
    ensures ReadInput(FormatEntry(symbol, width)) == StockEntry(symbol, width)
  {
    if width > 1 {
      FormattedIsInput(symbol, width);
      EntryRoundTrip(symbol, width);
    } else {
      UpperKeeps(symbol);
    }
  }

  /** A stored wide entry is already trimmed and upper-cased. */
  lemma FormattedIsInput(symbol: string, width: int)
    requires ':' !in symbol && 1 < width
    requires Trim(symbol) == symbol
    requires forall i :: 0 <= i < |symbol| ==> !('a' <= symbol[i] <= 'z')
    ensures Upper(Trim(FormatEntry(symbol, width))) == FormatEntry(symbol, width)
  {
    var entry := FormatEntry(symbol, width);
    var digits := DecimalString(width);
    assert entry == symbol + [':'] + digits;
    assert !IsWhitespace(entry[0]) by {
      if |symbol| > 0 {
        assert entry[0] == symbol[0];
      }
    }
    assert entry[|entry| - 1] == digits[|digits| - 1];
    TrimKeeps(entry);
    UpperKeeps(entry);
  }

  /**
   * `stockList.find(...)` by symbol returned an entry and that entry is
   * truthy: the first entry with the symbol is not the empty string.
   */
  predicate Listed(list: seq<string>, symbol: string) {
    symbol in Symbols(list) && list[FindSymbol(list, symbol)] != ""
  }

  /** Only an empty symbol can be on the list without counting as listed. */
  lemma ListedUnlessEmpty(list: seq<string>, symbol: string)
    requires symbol != ""
    ensures Listed(list, symbol) <==> symbol in Symbols(list)
  {
    if symbol in Symbols(list) {
      var i := FindSymbol(list, symbol);
      assert ParseStockEntry(list[i]).symbol == symbol;
    }
  }

  /**
   * `addStock`: refuses an empty input, a symbol `find` reports as already
   * on the list (at any width), and a symbol the quote lookup `found`
   * rejects; otherwise appends the formatted entry.
   */
  function AddStock(list: seq<string>, raw: string, found: string -> bool): (r: Result<seq<string>, AddError>)
    ensures Upper(Trim(raw)) == [] ==> r == Failure(EmptyInput)
    ensures Upper(Trim(raw)) != [] ==>
      var e := ReadInput(raw);
      && (r == Failure(AlreadyAdded) <==> Listed(list, e.symbol))
      && (r.Success? <==> !Listed(list, e.symbol) && found(e.symbol))
    ensures r.Success? ==>
      var e := ReadInput(raw);
      && |r.value| == |list| + 1 && r.value[..|list|] == list
      && ParseStockEntry(r.value[|list|]) == e
  {
    var input := Upper(Trim(raw));
    if input == [] then Failure(EmptyInput)
    else
      var e := ReadInput(raw);
      if Listed(list, e.symbol) then Failure(AlreadyAdded)
      else if !found(e.symbol) then Failure(NotFound)
      else
        EntryRoundTrip(e.symbol, e.width);
        Success(list + [FormatEntry(e.symbol, e.width)])
  }

  /**
   * Adding keeps the list at one entry per symbol, except when an empty
   * entry is listed and the input's symbol is empty too.
   */
  lemma AddKeepsSymbolsUnique(list: seq<string>, raw: string, found: string -> bool)
    requires UniqueSymbols(list)
    requires AddStock(list, raw, found).Success?
    ensures UniqueSymbols(AddStock(list, raw, found).value) || ("" in list && ReadInput(raw).symbol == "")
  {
    var r := AddStock(list, raw, found).value;
    var syms := Symbols(r);
    assert Symbols(list) == syms[..|list|];
    var symbol := ReadInput(raw).symbol;
    if symbol in Symbols(list) {
      var i := FindSymbol(list, symbol);
      assert list[i] == "";
      assert symbol == "";
    }
  }

  /** The falsy empty entry lets a second empty symbol in, so the exception above is real. */
  lemma AddEmptySymbolTwice(list: seq<string>, raw: string, found: string -> bool)
    requires UniqueSymbols(list) && "" in list
    requires Upper(Trim(raw)) != [] && ReadInput(raw).symbol == "" && found("")
    ensures AddStock(list, raw, found).Success?
    ensures !UniqueSymbols(AddStock(list, raw, found).value)
  {
    var k :| 0 <= k < |list| && list[k] == "";
    assert Symbols(list)[k] == "";
    var i := FindSymbol(list, "");
    assert i == k;
    var r := AddStock(list, raw, found).value;
    assert Symbols(r)[k] == "" && Symbols(r)[|list|] == "";
  }

  // ----- Removing -----

  function OtherSymbol(list: seq<string>, symbol: string): (flags: seq<bool>)
    ensures |flags| == |list|
    ensures forall i :: 0 <= i < |list| ==> flags[i] == (ParseStockEntry(list[i]).symbol != symbol)
  {
    seq(|list|, i requires 0 <= i < |list| => ParseStockEntry(list[i]).symbol != symbol)
  }

  /**
   * `removeStock` once confirmed: every entry with that symbol, at any
   * width, goes; the other entries stay, in order.
   */
  function RemoveStock(list: seq<string>, symbol: string): (r: seq<string>)
    ensures symbol !in Symbols(r)
    ensures var ks := Positions(OtherSymbol(list, symbol));
      && |r| == |ks|
      && (forall j, k :: 0 <= j < k < |ks| ==> ks[j] < ks[k])
      && (forall i :: 0 <= i < |list| ==> (ParseStockEntry(list[i]).symbol != symbol <==> i in ks))
      && (forall j :: 0 <= j < |ks| ==> ks[j] < |list| && r[j] == list[ks[j]])
  {
    Keep(list, OtherSymbol(list, symbol))
  }

  /** Removing a symbol that is not listed changes nothing. */
  lemma RemoveAbsent(list: seq<string>, symbol: string)
    requires symbol !in Symbols(list)
    ensures RemoveStock(list, symbol) == list
  {
    KeepAll(list, OtherSymbol(list, symbol));
  }

  /** Removing twice is removing once. */
  lemma RemoveIdempotent(list: seq<string>, symbol: string)
    ensures RemoveStock(RemoveStock(list, symbol), symbol) == RemoveStock(list, symbol)
  {
    RemoveAbsent(RemoveStock(list, symbol), symbol);
  }

  /**
   * Removing the symbol just added is removing it from the list before the
   * add, and so restores the list unless the symbol is empty.
   */
  lemma RemoveUndoesAdd(list: seq<string>, raw: string, found: string -> bool)
    requires AddStock(list, raw, found).Success?
    ensures RemoveStock(AddStock(list, raw, found).value, ReadInput(raw).symbol) == RemoveStock(list, ReadInput(raw).symbol)
    ensures ReadInput(raw).symbol != "" ==> RemoveStock(AddStock(list, raw, found).value, ReadInput(raw).symbol) == list
  {
    var symbol := ReadInput(raw).symbol;
    var r := AddStock(list, raw, found).value;
    var flags := OtherSymbol(r, symbol);
    assert r[..|list|] == list;
    assert flags[..|list|] == OtherSymbol(list, symbol);
    assert !flags[|list|];
    assert Keep(r, flags) == Keep(list, OtherSymbol(list, symbol));
    if symbol != "" {
      ListedUnlessEmpty(list, symbol);
      RemoveAbsent(list, symbol);
    }
  }

  // ----- Reordering -----

  /** `findIndex` by symbol: the first entry with that symbol. */
  function FindSymbol(list: seq<string>, symbol: string): (i: nat)
    requires symbol in Symbols(list)
    ensures i < |list| && ParseStockEntry(list[i]).symbol == symbol
    ensures forall j :: 0 <= j < i ==> ParseStockEntry(list[j]).symbol != symbol
  {
    IndexOf(Symbols(list), symbol)
  }

  /**
   * `handleDrop`: the dragged card's entry is taken out and inserted at the
   * index the target card's entry had. Dragging forward lands it just after
   * the target, dragging backward just before it -- where the card is
   * placed on screen; the other entries keep their order.
   */
  function Drop(list: seq<string>, dragged: string, target: string): (r: seq<string>)
    requires dragged in Symbols(list) && target in Symbols(list)
    ensures var from := FindSymbol(list, dragged); var to := FindSymbol(list, target);
      && |r| == |list| && multiset(r) == multiset(list)
      && r[to] == list[from]
      && Delete(r, to) == Delete(list, from)
      && (from < to ==> r[to - 1] == list[to])
      && (to < from ==> r[to + 1] == list[to])
  {
    Move(list, FindSymbol(list, dragged), FindSymbol(list, target))
  }

  /** Dropping a card back where it came from undoes a drop. */
  lemma DropUndo(list: seq<string>, dragged: string, target: string)
    requires dragged in Symbols(list) && target in Symbols(list)
    ensures Move(Drop(list, dragged, target), FindSymbol(list, target), FindSymbol(list, dragged)) == list
  {
    MoveInverse(list, FindSymbol(list, dragged), FindSymbol(list, target));
  }

  /** Reordering keeps the list at one entry per symbol. */
  lemma DropKeepsSymbolsUnique(list: seq<string>, dragged: string, target: string)
    requires UniqueSymbols(list)
    requires dragged in Symbols(list) && target in Symbols(list)
    ensures UniqueSymbols(Drop(list, dragged, target))
  {
    var from := FindSymbol(list, dragged);
    var to := FindSymbol(list, target);
    var r := Move(list, from, to);
    forall i, j | 0 <= i < j < |r|
      ensures Symbols(r)[i] != Symbols(r)[j]
    {
      MovedSymbolsDiffer(list, from, to, i, j);
    }
  }

  /** Two different positions after a move hold entries of two different positions before it. */
  lemma MovedSymbolsDiffer(list: seq<string>, from: nat, to: nat, i: nat, j: nat)
    requires UniqueSymbols(list)
    requires from < |list| && to < |list| && i < j < |list|
    ensures Symbols(Move(list, from, to))[i] != Symbols(Move(list, from, to))[j]
  {
    var a := PreimageOfMove(list, from, to, i);
    var b := PreimageOfMove(list, from, to, j);
    assert a != b;
    assert Symbols(list)[a] != Symbols(list)[b];
  }

  /** The original index of the entry found at `i` after a move. */
  function PreimageOfMove(s: seq<string>, from: nat, to: nat, i: nat): (k: nat)
    requires from < |s| && to < |s| && i < |s|
    ensures k < |s| && Move(s, from, to)[i] == s[k]
    ensures i == to <==> k == from
  {
    var d := if i < to then i else if i == to then 0 else i - 1;
    if i == to then from
    else if d < from then d else d + 1
  }

  // ----- Collapsed cards -----

  /** The card on screen for a symbol, if any, and whether it is collapsed. */
  datatype Card = NoCard | Expanded | Collapsed

  /** `indexOf` and `splice(index, 1)`: the first occurrence goes, if any. */
  function RemoveFirst(s: seq<string>, x: string): (r: seq<string>)
    ensures x in s ==> |r| == |s| - 1
    ensures x !in s ==> r == s
    ensures x in s ==> exists i :: 0 <= i < |s| && s[i] == x && x !in s[..i] && r == s[..i] + s[i + 1..]
    ensures Distinct(s) ==> x !in r && Distinct(r) && forall y :: y != x ==> (y in r <==> y in s)
  {
    var i := IndexOf(s, x);
    if i < |s| then
      assert x !in s[..i];
      Delete(s, i)
    else s
  }

  /**
   * `toggleCardCollapse`: no card, no change; expanding removes the symbol
   * from the saved list; collapsing appends it unless already there.
   */
  function ToggleCollapse(collapsed: seq<string>, symbol: string, card: Card): (r: seq<string>)
    ensures card.NoCard? ==> r == collapsed
    ensures card.Expanded? ==> symbol in r && forall y :: y != symbol ==> (y in r <==> y in collapsed)
    ensures card.Expanded? && symbol in collapsed ==> r == collapsed
    ensures card.Expanded? && symbol !in collapsed ==> r == collapsed + [symbol]
    ensures card.Collapsed? ==> r == RemoveFirst(collapsed, symbol)
    ensures card.Collapsed? && Distinct(collapsed) ==>
      symbol !in r && forall y :: y != symbol ==> (y in r <==> y in collapsed)
    ensures Distinct(collapsed) ==> Distinct(r)
  {
    match card
    case NoCard => collapsed
    case Collapsed => RemoveFirst(collapsed, symbol)
    case Expanded => if symbol in collapsed then collapsed else collapsed + [symbol]
  }

  /** Collapsing a card and expanding it again restores the saved list. */
  lemma CollapseThenExpand(collapsed: seq<string>, symbol: string)
    requires symbol !in collapsed
    ensures ToggleCollapse(ToggleCollapse(collapsed, symbol, Expanded), symbol, Collapsed) == collapsed
  {
    var c := collapsed + [symbol];
    assert c[|collapsed|] == symbol;
    assert forall j :: 0 <= j < |collapsed| ==> c[j] == collapsed[j];
    assert IndexOf(c, symbol) == |collapsed|;
    assert c[..|collapsed|] == collapsed;
  }

  function HasCard(list: seq<string>, cards: set<string>): (flags: seq<bool>)
    ensures |flags| == |list|
    ensures forall i :: 0 <= i < |list| ==> flags[i] == (Symbols(list)[i] in cards)
  {
    seq(|list|, i requires 0 <= i < |list| => Symbols(list)[i] in cards)
  }

  /**
   * `collapseAllCards`: the saved list becomes the symbols, in list order,
   * of the entries whose card is on screen.
   */
  function CollapseAll(list: seq<string>, cards: set<string>): (r: seq<string>)
    ensures forall y :: y in r <==> y in Symbols(list) && y in cards
    ensures var ps := Positions(HasCard(list, cards));
      && |r| == |ps|
      && (forall j, k :: 0 <= j < k < |ps| ==> ps[j] < ps[k])
      && (forall i :: 0 <= i < |list| ==> (Symbols(list)[i] in cards <==> i in ps))
      && (forall j :: 0 <= j < |ps| ==> ps[j] < |list| && r[j] == Symbols(list)[ps[j]])
    ensures UniqueSymbols(list) ==> Distinct(r)
  {
    var r := Keep(Symbols(list), HasCard(list, cards));
    forall y ensures y in r <==> y in Symbols(list) && y in cards {
      KeepMembership(Symbols(list), HasCard(list, cards), y);
    }
    r
  }

  /** `expandAllCards`: the saved list is cleared. */
  function ExpandAll(list: seq<string>): (r: seq<string>)
    ensures forall y :: y !in r
  {
    []
  }
}
