/**
 * Account sync (auth.js): which storage keys are synced, how a sign-in
 * merges the guest session's stock list and graphs into the account's, and
 * when a storage write schedules a push to the server.
 */
module Sync {
  import opened Wrappers
  import opened Seqs
  import Dashboard

  /** `SYNC_KEYS`: the storage keys that follow the signed-in user. */
  const SyncKeys: seq<string> := [
    "stock_list",
    "collapsed_stocks",
    "portfolio_graphs",
    "portfolio_positions",
    "portfolio_positions_uploaded_at",
    "portfolio_trades",
    "portfolio_trades_uploaded_at",
    "portfolio_categories",
    "portfolio_categories_columns",
    "portfolio_categories_uploaded_at",
    "show_values"]

  /** `localStorage`, as its key/value strings. */
  type Storage = map<string, string>

  // ----- Writes -----

  /** A storage write and whether it scheduled a (debounced) push. */
  datatype Write = Write(storage: Storage, schedulesPush: bool)

  /** The patched `localStorage.setItem`: always writes; schedules a push only for a signed-in user and a synced key. */
  function SetItem(storage: Storage, key: string, value: string, signedIn: bool): (w: Write)
    ensures key in w.storage && w.storage[key] == value
    ensures forall k :: k != key ==> (k in w.storage <==> k in storage) && (k in storage ==> w.storage[k] == storage[k])
    ensures w.schedulesPush <==> signedIn && key in SyncKeys
  {
    Write(storage[key := value], signedIn && key in SyncKeys)
  }

  /** The patched `localStorage.removeItem`: always removes; schedules a push under the same rule as `SetItem`. */
  function RemoveItem(storage: Storage, key: string, signedIn: bool): (w: Write)
    ensures key !in w.storage
    ensures forall k :: k != key ==> (k in w.storage <==> k in storage) && (k in storage ==> w.storage[k] == storage[k])
    ensures w.schedulesPush <==> signedIn && key in SyncKeys
  {
    Write(storage - {key}, signedIn && key in SyncKeys)
  }

  /** Guests never push, and local-only keys (caches, UI state) never push. */
  lemma OnlySignedInSyncedWritesPush(storage: Storage, key: string, value: string, signedIn: bool)
    ensures !signedIn ==> !SetItem(storage, key, value, signedIn).schedulesPush && !RemoveItem(storage, key, signedIn).schedulesPush
    ensures key !in SyncKeys ==> !SetItem(storage, key, value, signedIn).schedulesPush && !RemoveItem(storage, key, signedIn).schedulesPush
    ensures signedIn ==> SetItem(storage, "stock_list", value, signedIn).schedulesPush
  {
  }

  /** `pushToServer`'s payload: the synced keys present in storage, and their values. */
  function PushPayload(storage: Storage): (p: map<string, string>)
    ensures forall k :: k in p <==> k in storage && k in SyncKeys
    ensures forall k :: k in p ==> p[k] == storage[k]
  {
    map k | k in storage && k in SyncKeys :: storage[k]
  }

  /** A write to a key that schedules no push for a signed-in user leaves the push payload as it was. */
  lemma LocalWritesLeavePayload(storage: Storage, key: string, value: string)
    requires !SetItem(storage, key, value, true).schedulesPush
    ensures PushPayload(SetItem(storage, key, value, true).storage) == PushPayload(storage)
    ensures PushPayload(RemoveItem(storage, key, true).storage) == PushPayload(storage)
  {
    var set1 := SetItem(storage, key, value, true).storage;
    var removed := RemoveItem(storage, key, true).storage;
    assert key !in SyncKeys;
    assert forall k :: k in PushPayload(set1) <==> k in PushPayload(storage);
    assert forall k :: k in PushPayload(removed) <==> k in PushPayload(storage);
  }

  /** Removing a key right after writing it is removing it, and both calls push alike. */
  lemma SetThenRemove(storage: Storage, key: string, value: string, signedIn: bool)
    ensures RemoveItem(SetItem(storage, key, value, signedIn).storage, key, signedIn).storage
      == RemoveItem(storage, key, signedIn).storage
    ensures RemoveItem(SetItem(storage, key, value, signedIn).storage, key, signedIn).schedulesPush
      == SetItem(storage, key, value, signedIn).schedulesPush
  {
    var a := RemoveItem(SetItem(storage, key, value, signedIn).storage, key, signedIn).storage;
    var b := RemoveItem(storage, key, signedIn).storage;
    assert forall k :: k in a <==> k in b;
  }

  // ----- Sign-in pull -----

  /**
   * Writing the server's data into storage (through the unpatched
   * `setItem`): every key the server holds with a non-null value is
   * overwritten; every other key keeps its local value.
   */
  function Populate(storage: Storage, server: map<string, Option<string>>): (s: Storage)
    ensures forall k :: k in s <==> k in storage || (k in server && server[k].Some?)
    ensures forall k :: k in server && server[k].Some? ==> s[k] == server[k].value
    ensures forall k :: k in storage && !(k in server && server[k].Some?) ==> s[k] == storage[k]
  {
    map k | k in storage.Keys + server.Keys && (k in storage || server[k].Some?) ::
      if k in server && server[k].Some? then server[k].value else storage[k]
  }

  /** A portfolio graph: a bare name, or a configuration with an `id`. */
  datatype Graph = Named(name: string) | Configured(id: string, config: string)

  /** `typeof g === 'string' ? g : g.id`. */
  function GraphKey(g: Graph): string {
    match g
    case Named(name) => name
    case Configured(id, _) => id
  }

  /** A ticker is its own key. */
  function TickerKey(t: string): string {
    t
  }

  function Keys<T>(s: seq<T>, key: T -> string): (ks: seq<string>)
    ensures |ks| == |s|
    ensures forall i :: 0 <= i < |s| ==> ks[i] == key(s[i])
  {
    seq(|s|, i requires 0 <= i < |s| => key(s[i]))
  }

  function IsNew<T>(guest: seq<T>, base: seq<T>, key: T -> string): (flags: seq<bool>)
    ensures |flags| == |guest|
    ensures forall i :: 0 <= i < |guest| ==> flags[i] == (key(guest[i]) !in Keys(base, key))
  {
    seq(|guest|, i requires 0 <= i < |guest| => key(guest[i]) !in Keys(base, key))
  }

  /** A merged list and whether the guest contributed anything. */
  datatype Merged<T> = Merged(items: seq<T>, added: bool)

  /**
   * The additive merge of a guest list into the account's list: the
   * account's items first, in their order, then the guest items whose key
   * the account lacks, in guest order.
   */
  function MergeBy<T>(guest: seq<T>, base: seq<T>, key: T -> string): (m: Merged<T>)
    ensures var additions := Keep(guest, IsNew(guest, base, key));
      m.items == base + additions && (m.added <==> |additions| > 0)
  {
    var additions := Keep(guest, IsNew(guest, base, key));
    if |guest| > 0 && |additions| > 0 then Merged(base + additions, true) else Merged(base, false)
  }

  /** Nothing is lost: every account item and every guest item's key survives the merge. */
  lemma {:induction false} MergeLosesNothing<T>(guest: seq<T>, base: seq<T>, key: T -> string)
    ensures var m := MergeBy(guest, base, key);
      && m.items[..|base|] == base
      && forall i :: 0 <= i < |guest| ==> key(guest[i]) in Keys(m.items, key)
  {
    var m := MergeBy(guest, base, key);
    var flags := IsNew(guest, base, key);
    var additions := Keep(guest, flags);
    forall i | 0 <= i < |guest|
      ensures key(guest[i]) in Keys(m.items, key)
    {
      if flags[i] {
        KeepMembership(guest, flags, guest[i]);
        var j :| 0 <= j < |additions| && additions[j] == guest[i];
        assert m.items[|base| + j] == guest[i];
        assert Keys(m.items, key)[|base| + j] == key(guest[i]);
      } else {
        var j :| 0 <= j < |base| && Keys(base, key)[j] == key(guest[i]);
        assert Keys(m.items, key)[j] == key(guest[i]);
      }
    }
  }

  /** Nothing is invented: every merged item is an account item or a guest item. */
  lemma MergeInventsNothing<T>(guest: seq<T>, base: seq<T>, key: T -> string)
    ensures forall x :: x in MergeBy(guest, base, key).items ==> x in base || x in guest
  {
    var flags := IsNew(guest, base, key);
    forall x | x in MergeBy(guest, base, key).items
      ensures x in base || x in guest
    {
      KeepMembership(guest, flags, x);
    }
  }

  /**
   * No duplicates: when neither list repeats a key, neither does the merge.
   * The guest item whose key the account already has is the one dropped.
   */
  lemma {:induction false} MergeKeepsKeysDistinct<T>(guest: seq<T>, base: seq<T>, key: T -> string)
    requires Distinct(Keys(guest, key)) && Distinct(Keys(base, key))
    ensures Distinct(Keys(MergeBy(guest, base, key).items, key))
  {
    var flags := IsNew(guest, base, key);
    var additions := Keep(guest, flags);
    var ps := Positions(flags);
    var items := MergeBy(guest, base, key).items;
    var ks := Keys(items, key);
    forall i, j | 0 <= i < j < |ks|
      ensures ks[i] != ks[j]
    {
      if j >= |base| {
        var gj := ps[j - |base|];
        assert items[j] == guest[gj];
        assert key(guest[gj]) !in Keys(base, key);
        if i >= |base| {
          var gi := ps[i - |base|];
          assert gi < gj;
          assert Keys(guest, key)[gi] != Keys(guest, key)[gj];
        } else {
          assert ks[i] == Keys(base, key)[i];
        }
      } else {
        assert ks[i] == Keys(base, key)[i] && ks[j] == Keys(base, key)[j];
      }
    }
  }

  /**
   * The lists a sign-in pull leaves in storage, and whether it pushes.
   * `serverStocks` and `serverGraphs` are the account's lists, `None` when
   * the server has none (then the guest's stored list is what is read back).
   */
  datatype Pulled = Pulled(stocks: seq<string>, graphs: seq<Graph>, needsPush: bool)

  /**
   * `pullFromServer` after a good response: the account's lists win, the
   * guest's additions are appended, and a push follows exactly when the
   * guest added something.
   */
  function Pull(guestStocks: seq<string>, guestGraphs: seq<Graph>,
                serverStocks: Option<seq<string>>, serverGraphs: Option<seq<Graph>>): (p: Pulled)
    ensures var stocks := MergeBy(guestStocks, serverStocks.GetOr(guestStocks), TickerKey);
      var graphs := MergeBy(guestGraphs, serverGraphs.GetOr(guestGraphs), GraphKey);
      && p.stocks == stocks.items && p.graphs == graphs.items
      && (p.needsPush <==> stocks.added || graphs.added)
  {
    var stocks := MergeBy(guestStocks, serverStocks.GetOr(guestStocks), TickerKey);
    var graphs := MergeBy(guestGraphs, serverGraphs.GetOr(guestGraphs), GraphKey);
    Pulled(stocks.items, graphs.items, stocks.added || graphs.added)
  }

  /** A guest list merged into itself adds nothing. */
  lemma {:induction false} MergeWithSelf<T>(guest: seq<T>, key: T -> string)
    ensures MergeBy(guest, guest, key) == Merged(guest, false)
  {
    var flags := IsNew(guest, guest, key);
    forall i | 0 <= i < |guest|
      ensures !flags[i]
    {
      assert Keys(guest, key)[i] == key(guest[i]);
    }
    PositionsNoneSet(flags);
  }

  /**
   * When the account has no lists, or the guest adds nothing new, the pull
   * does not push; when the guest has a ticker the account lacks, it does.
   */
  lemma PullPushesOnlyForGuestAdditions(guestStocks: seq<string>, guestGraphs: seq<Graph>,
                                        serverStocks: Option<seq<string>>, serverGraphs: Option<seq<Graph>>)
    ensures serverStocks.None? && serverGraphs.None? ==>
      Pull(guestStocks, guestGraphs, serverStocks, serverGraphs) == Pulled(guestStocks, guestGraphs, false)
    ensures serverStocks.Some? && (exists t :: t in guestStocks && t !in serverStocks.value) ==>
      Pull(guestStocks, guestGraphs, serverStocks, serverGraphs).needsPush
  {
    MergeWithSelf(guestStocks, TickerKey);
    MergeWithSelf(guestGraphs, GraphKey);
    if serverStocks.Some? && exists t :: t in guestStocks && t !in serverStocks.value {
      var t :| t in guestStocks && t !in serverStocks.value;
      var flags := IsNew(guestStocks, serverStocks.value, TickerKey);
      var i :| 0 <= i < |guestStocks| && guestStocks[i] == t;
      assert Keys(serverStocks.value, TickerKey) == serverStocks.value;
      assert flags[i];
      KeepMembership(guestStocks, flags, t);
    }
  }

  /**
   * Tickers are matched as whole stored entries, width included: a guest's
   * `AAPL:2` is new to an account holding `AAPL`, so the merged list holds
   * two entries for the same symbol.
   */
  lemma MergeMatchesWholeEntries()
    ensures var p := Pull(["AAPL:2"], [], Some(["AAPL"]), None);
      && p.stocks == ["AAPL", "AAPL:2"]
      && p.needsPush
      && Dashboard.Symbols(p.stocks) == ["AAPL", "AAPL"]
  {
    WidthDoesNotMatch();
    MergeWithSelf([], GraphKey);
    SameSymbol();
  }

  lemma WidthDoesNotMatch()
    ensures MergeBy(["AAPL:2"], ["AAPL"], TickerKey) == Merged(["AAPL", "AAPL:2"], true)
  {
    var flags := IsNew(["AAPL:2"], ["AAPL"], TickerKey);
    assert Keys(["AAPL"], TickerKey) == ["AAPL"];
    assert flags == [true];
    assert Positions(flags) == [0];
  }

  lemma SameSymbol()
    ensures Dashboard.Symbols(["AAPL", "AAPL:2"]) == ["AAPL", "AAPL"]
  {
    TwoEntries("AAPL", "AAPL:2", 4);
  }

  /** The symbols of a bare entry and of one with a colon at `k`. */
  lemma TwoEntries(bare: string, wide: string, k: nat)
    requires ':' !in bare && k < |wide| && wide[k] == ':' && ':' !in wide[..k] && wide[..k] == bare
    ensures Dashboard.Symbols([bare, wide]) == [bare, bare]
  {
    Dashboard.SymbolBeforeColon(wide, k);
  }
}
