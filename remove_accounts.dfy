/**
 * The account removal screen (src/screens/remove-accounts.ts): every keychain account is
 * listed as a checkable option, and confirming deletes the checked accounts' passwords
 * before going back.
 */
module RemoveAccounts {
  import opened Wrappers
  import opened JsonValues
  import opened Keychain
  import LocalStorage
  import opened CheckableLists
  import opened WindowManagement
  import opened InstructionsBar

  /** The handlers of the screen's commands. */
  const GoBackHandler: Callback := 0
  const AskConfirmHandler: Callback := 1
  const CancelHandler: Callback := 2
  const DeleteHandler: Callback := 3

  /** The two command layers: `default` (go back, delete selected) and `confirm` (cancel, confirm delete). */
  const RemoveCommands: Commands := Layers(map[
    "default" := [Instruction("c", "go back", GoBackHandler), Instruction("d", "delete selected", AskConfirmHandler)],
    "confirm" := [Instruction("c", "cancel", CancelHandler), Instruction("backspace", "confirm delete", DeleteHandler)]
  ])

  /**
   * Asking to delete and then cancelling installs the `default` handlers again and nothing
   * else: the confirmation handlers are gone and none are duplicated.
   */
  lemma ConfirmThenCancel(s: LayerState)
    requires s.current == NormaliseLayers(RemoveCommands)["default"]
    requires s.content == Content(s.current)
    requires Listeners(s.current) <= s.listeners
    ensures var layers := NormaliseLayers(RemoveCommands);
      var asked := SetLayerStep(layers, s, "confirm");
      var back := SetLayerStep(layers, asked.0, "default");
      asked.1 == None && back.1 == None && back.0 == s
  {
    var layers := NormaliseLayers(RemoveCommands);
    assert "confirm" in layers && "default" in layers;
    SwitchLayersNoAccumulation(layers, s, "confirm", "default");
    var base := s.listeners - Listeners(s.current);
    assert base + Listeners(s.current) == s.listeners;
  }

  /** The options built from the credentials: key and label are both the account, none checked. */
  function AccountItems(accounts: seq<string>): (r: seq<CheckableItem>)
    ensures |r| == |accounts|
    ensures forall k :: 0 <= k < |accounts| ==> r[k].key == accounts[k] && r[k].value == accounts[k] && !r[k].checked
  {
    seq(|accounts|, k requires 0 <= k < |accounts| => CheckableItem(accounts[k], accounts[k], false))
  }

  /**
   * The listing of `onComponentRegister`: every account's password goes through
   * `JSON.parse`, the `"__store"` record included, and one it rejects rejects the listing.
   */
  function Listing(accounts: seq<string>, stored: map<string, Secret>): (r: Result<seq<CheckableItem>>)
    ensures r.Success? <==> forall a :: a in accounts ==> a in stored && stored[a].Encoded?
    ensures r.Success? ==> r.value == AccountItems(accounts)
    ensures r.Failure? ==> r.error == ParseError
  {
    if forall a :: a in accounts ==> a in stored && Parse(stored[a]).Some? then Success(AccountItems(accounts))
    else Failure(ParseError)
  }

  /** Unlike the selection screen, the removal screen offers the saved-selection record itself. */
  lemma StoreRecordOffered(accounts: seq<string>, stored: map<string, Secret>)
    requires StoreKey in accounts && Listing(accounts, stored).Success?
    ensures exists k :: 0 <= k < |accounts| && Listing(accounts, stored).value[k].key == StoreKey
  {
    var k :| 0 <= k < |accounts| && accounts[k] == StoreKey;
    assert Listing(accounts, stored).value[k].key == StoreKey;
  }

  /** The list the screen builds for distinct accounts: the accounts as given, one unchecked row each, nothing selected. */
  lemma AccountRows(accounts: seq<string>)
    requires forall i, j :: 0 <= i < j < |accounts| ==> accounts[i] != accounts[j]
    ensures var items := AccountItems(accounts);
      DistinctItemKeys(items) && SetAll([], items) == items
      && RenderRows([], items) == FreshRows(items, 0) && Selected(FreshRows(items, 0)) == []
  {
    var items := AccountItems(accounts);
    InitialItems(items);
    InitialRows(items);
    NothingCheckedNothingSelected(items, 0);
  }

  /** The keychain after deleting each of `keys` in turn. */
  function DeleteAll(entries: map<string, Secret>, keys: seq<string>): (r: map<string, Secret>)
    ensures forall a :: a in r <==> a in entries && a !in keys
    ensures forall a :: a in r ==> r[a] == entries[a]
    decreases |keys|
  {
    if keys == [] then entries
    else
      var n := |keys| - 1;
      assert forall a :: a in keys <==> a in keys[..n] || a == keys[n];
      DeleteAll(entries, keys[..n]) - {keys[n]}
  }

  /** Deleting a selection that leaves out `"__store"` keeps the saved settings as they were. */
  lemma DeleteKeepsSettings(entries: map<string, Secret>, keys: seq<string>)
    requires StoreKey !in keys
    ensures LocalStorage.Load(DeleteAll(entries, keys)) == LocalStorage.Load(entries)
  {
    var after := DeleteAll(entries, keys);
    assert StoreKey in after <==> StoreKey in entries;
  }

  /** Deleting `"__store"` resets the settings to their defaults, whatever they held. */
  lemma DeleteStoreResetsSettings(entries: map<string, Secret>, keys: seq<string>)
    requires StoreKey in keys
    ensures LocalStorage.Load(DeleteAll(entries, keys)) == Success(LocalStorage.Defaults)
  {
  }

  /** Deleting the same accounts a second time changes nothing. */
  lemma {:induction false} DeleteAllIdempotent(entries: map<string, Secret>, keys: seq<string>)
    ensures DeleteAll(DeleteAll(entries, keys), keys) == DeleteAll(entries, keys)
  {
    var once := DeleteAll(entries, keys);
    var twice := DeleteAll(once, keys);
    assert forall a :: a in twice <==> a in once;
  }

  class RemoveAccountScreen {
    const keychain: Keychain
    const wm: WindowManager
    const instructions: Instructions
    /** `options!`: assigned once the accounts are listed. */
    var options: CheckableList?

    ghost predicate Valid()
      reads this, options
    {
      options != null ==> options.Valid()
    }

    /** The constructor: the command layers; no options yet. */
    constructor(keychain: Keychain, wm: WindowManager, screen: Screen)
      ensures Valid() && options == null
      ensures this.keychain == keychain && this.wm == wm && fresh(instructions)
      ensures instructions.screen == screen && instructions.layers == NormaliseLayers(RemoveCommands)
      ensures instructions.currentLayer == [] && instructions.content == ""
    {
      this.keychain := keychain;
      this.wm := wm;
      instructions := new Instructions(screen, RemoveCommands);
      options := null;
    }

    /**
     * The listing part of `onComponentRegister()`; `order` is the order in which
     * `findCredentials` listed the accounts. A rejected listing leaves `options` unset.
     */
    method ListAccounts() returns (order: seq<string>, error: Option<string>)
      requires Valid()
      modifies this
      ensures Valid()
      ensures forall a :: a in order <==> a in keychain.entries
      ensures forall i, j :: 0 <= i < j < |order| ==> order[i] != order[j]
      ensures var listed := Listing(order, keychain.entries);
        (listed.Failure? ==> error == Some(listed.error) && options == old(options))
        && (listed.Success? ==>
              error == None && options != null && fresh(options)
              && options.items == listed.value && options.rows == RenderRows([], listed.value)
              && options.rows == FreshRows(listed.value, 0) && options.SelectedKeys() == []
              && options.selectedIndex == -1)
    {
      order := keychain.FindCredentials();
      var listed := Listing(order, keychain.entries);
      if listed.Failure? {
        return order, Some(listed.error);
      }
      assert listed.value == AccountItems(order);
      AccountRows(order);
      var list := new CheckableList(listed.value);
      assert list.rows == FreshRows(listed.value, 0);
      options := list;
      error := None;
    }

    /** `deleteSelected()`: each checked account's password is deleted, then the screen goes back. */
    method DeleteSelected()
      requires Valid() && options != null && wm.Valid()
      modifies keychain, wm
      ensures keychain.entries == DeleteAll(old(keychain.entries), options.SelectedKeys())
      ensures wm.Valid() && wm.stack == Pop(old(wm.stack)) && wm.ids == old(wm.ids)
      ensures var back := BackTarget(old(wm.stack), false);
        back.Show? && wm.curr == ShowStep(old(wm.ids), old(wm.curr), back.target).curr
    {
      var selected := options.SelectedKeys();
      var i := 0;
      while i < |selected|
        invariant 0 <= i <= |selected|
        invariant keychain.entries == DeleteAll(old(keychain.entries), selected[..i])
        invariant wm.ids == old(wm.ids) && wm.curr == old(wm.curr) && wm.stack == old(wm.stack)
      {
        assert selected[..i + 1][..i] == selected[..i];
        var _ := keychain.DeletePassword(selected[i]);
        i := i + 1;
      }
      assert selected[..i] == selected;
      var _ := wm.GoBack(false);
    }
  }
}
