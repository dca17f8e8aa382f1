/**
  The provider dialog (`providerDialogCmp`): a list of providers and, once
  one is chosen, an API-key input for it. The list widget, the text input
  and the configuration store are libraries; the model keeps what the
  dialog itself reads and writes of them: the list's items, its selected
  index and size, the input's value and provider name, and the outcome of
  saving a key, which is an input to the model.
*/
module Providers {
  import opened Wrappers
  import opened GoInt

  /** A provider as the catalogue lists it. */
  datatype Provider = Provider(id: string, name: string)

  /** A completion item of the provider list. */
  datatype Item = Item(title: string, id: string, provider: Provider, shortcut: string, focusedShortcut: string)

  /** What an update hands back to the program, beside the new state. */
  datatype Cmd =
    | NoCmd
    | ReportError(message: string)
    | CloseAndReportInfo(info: string)
    | CloseDialog
    | FromList
    | FromInput

  const DefaultWidth: int := 50
  const ListMinHeight: int := 6
  const Configured: string := "✅ configured"
  const ChangeKey: string := "Change API key..."
  const SetKey: string := "Set API key..."
  const NoProvider: string := "no provider selected"
  const SaveFailed: string := "failed to save API key: "
  const SavedFor: string := "API key saved for "

  /** The name a provider is listed under: its name, or its ID when it has none. */
  function DisplayName(p: Provider): (s: string)
    ensures p.name != "" ==> s == p.name
    ensures p.name == "" ==> s == p.id
  {
    if p.name == "" then p.id else p.name
  }

  /** The list item for a provider; `configured` holds the IDs that already have a configuration. */
  function ItemFor(p: Provider, configured: set<string>): Item {
    if p.id in configured then Item(DisplayName(p), p.id, p, Configured, ChangeKey)
    else Item(DisplayName(p), p.id, p, "", SetKey)
  }

  function Items(ps: seq<Provider>, configured: set<string>): (r: seq<Item>)
    ensures |r| == |ps|
    ensures forall i :: 0 <= i < |ps| ==> r[i] == ItemFor(ps[i], configured)
  {
    seq(|ps|, i requires 0 <= i < |ps| => ItemFor(ps[i], configured))
  }

  /** Every item is listed under the provider's display name and carries its ID; the shortcuts tell configured providers apart. */
  lemma ItemsDescribeProviders(ps: seq<Provider>, configured: set<string>, i: int)
    requires 0 <= i < |ps|
    ensures var it := Items(ps, configured)[i];
      && it.title == DisplayName(ps[i]) && it.id == ps[i].id && it.provider == ps[i]
      && (it.shortcut == Configured <==> ps[i].id in configured)
      && (it.focusedShortcut == ChangeKey <==> ps[i].id in configured)
      && (it.focusedShortcut == SetKey <==> ps[i].id !in configured)
  {
    assert ChangeKey != SetKey by { assert ChangeKey[0] != SetKey[0]; }
    assert Configured != "" by { assert |Configured| > 0; }
  }

  /**
    The list height `Init` asks for: room for every item plus two rows, at
    least six; once the window height is known, at most half of it.
  */
  function ListHeight(itemCount: int, wHeight: int): (h: int)
    ensures h <= Max(ListMinHeight, itemCount + 2)
    ensures wHeight > 0 ==> h <= Quot(wHeight, 2)
    ensures wHeight <= 0 ==> h >= ListMinHeight
    ensures wHeight > 0 && Max(ListMinHeight, itemCount + 2) > Quot(wHeight, 2) ==> h == Quot(wHeight, 2)
  {
    var desired := Max(ListMinHeight, itemCount + 2);
    if wHeight > 0 && desired > Quot(wHeight, 2) then Quot(wHeight, 2) else desired
  }

  lemma ListHeightBounds(itemCount: int, wHeight: int)
    ensures var h := ListHeight(itemCount, wHeight);
      && h <= Max(ListMinHeight, itemCount + 2)
      && (wHeight > 0 ==> h <= Quot(wHeight, 2))
      && (wHeight <= 0 ==> h >= ListMinHeight && h >= itemCount + 2)
      && (wHeight > 0 && Max(ListMinHeight, itemCount + 2) <= Quot(wHeight, 2) ==> h == Max(ListMinHeight, itemCount + 2))
      && (wHeight > 0 && Max(ListMinHeight, itemCount + 2) > Quot(wHeight, 2) ==> h == Quot(wHeight, 2))
  {
  }

  /** The cap at half the window wins over the minimum of six: a window four rows high gives a list two rows high. */
  lemma ListHeightBelowMinimum()
    ensures ListHeight(0, 4) == 2 && ListHeight(10, 4) == 2
  {
    assert Quot(4, 2) == 2;
  }

  /** Where the dialog sits: a quarter down the window less two rows, centred horizontally. */
  function DialogPosition(wWidth: int, wHeight: int, width: int): (rc: (int, int))
    ensures rc.0 == Quot(wHeight, 4) - 2 && rc.1 == Quot(wWidth, 2) - Quot(width, 2)
  {
    var row := Quot(wHeight, 4) - 2;
    var col := Quot(wWidth, 2);
    (row, col - Quot(width, 2))
  }

  /** The margins left and right of the dialog differ by at most one column. */
  lemma DialogCentred(wWidth: int, wHeight: int, width: int)
    requires wWidth >= 0 && width >= 0
    ensures var col := DialogPosition(wWidth, wHeight, width).1;
      var rightMargin := wWidth - col - width;
      -1 <= col - rightMargin <= 1
  {
    var q1, q2 := Quot(wWidth, 2), Quot(width, 2);
    assert 0 <= wWidth - 2 * q1 < 2;
    assert 0 <= width - 2 * q2 < 2;
  }

  /** The selected index after moving down a wrapping list of `n` items. */
  function Below(cursor: nat, n: nat): (c: nat)
    ensures n > 0 ==> c < n
  {
    if n == 0 then cursor else if cursor + 1 < n then cursor + 1 else 0
  }

  /** The selected index after moving up a wrapping list of `n` items. */
  function Above(cursor: nat, n: nat): (c: nat)
    ensures n > 0 ==> c < n
  {
    if n == 0 then cursor else if 0 < cursor <= n then cursor - 1 else n - 1
  }

  /** Moving down then up, or up then down, returns to the same item. */
  lemma AboveBelowInverse(cursor: nat, n: nat)
    requires cursor < n
    ensures Above(Below(cursor, n), n) == cursor
    ensures Below(Above(cursor, n), n) == cursor
  {
  }

  /** A cursor position on the screen. */
  class Cursor {
    var x: int
    var y: int

    constructor (x0: int, y0: int)
      ensures x == x0 && y == y0
    {
      x, y := x0, y0;
    }
  }

  class ProviderDialog {
    var width: int
    var wWidth: int
    var wHeight: int
    var items: seq<Item>
    /** The list's selected index; it names an item whenever there is one. */
    var cursor: nat
    var listWidth: int
    var listHeight: int
    var needsAPIKey: bool
    var selectedProvider: Option<Provider>
    var inputValue: string
    var inputProviderName: string
    var inputWidth: int
    var helpWidth: int

    /** In API-key mode exactly when a provider is selected, and the selection is on an item. */
    predicate Valid()
      reads this
    {
      && (needsAPIKey <==> selectedProvider.Some?)
      && (|items| > 0 ==> cursor < |items|)
      && (|items| == 0 ==> cursor == 0)
    }

    /** The list's selected item, if it has any. */
    function SelectedItem(): (r: Option<Item>)
      reads this
      ensures r.Some? <==> cursor < |items|
      ensures r.Some? ==> r.value == items[cursor]
    {
      if cursor < |items| then Some(items[cursor]) else None
    }

    /** `NewProviderDialogCmp`: an empty list, list mode, 50 columns wide. */
    constructor ()
      ensures Valid()
      ensures width == DefaultWidth && wWidth == 0 && wHeight == 0
      ensures items == [] && cursor == 0 && !needsAPIKey && selectedProvider == None
      ensures inputValue == "" && inputProviderName == ""
    {
      width := DefaultWidth;
      wWidth, wHeight := 0, 0;
      items, cursor := [], 0;
      listWidth, listHeight := 0, 0;
      needsAPIKey, selectedProvider := false, None;
      inputValue, inputProviderName := "", "";
      inputWidth, helpWidth := 0, 0;
    }

    /**
      `Init`: when the catalogue loads (`providers` is its result), one item
      per provider and a list sized to show them; otherwise nothing changes.
    */
    method Init(providers: Option<seq<Provider>>, configured: set<string>)
      modifies this
      ensures providers.None? ==> unchanged(this)
      ensures providers.Some? ==>
        && items == Items(providers.value, configured) && cursor == 0
        && listWidth == width - 2 && listHeight == ListHeight(|providers.value|, wHeight)
      ensures width == old(width) && wWidth == old(wWidth) && wHeight == old(wHeight)
      ensures needsAPIKey == old(needsAPIKey) && selectedProvider == old(selectedProvider)
      ensures inputValue == old(inputValue) && inputProviderName == old(inputProviderName)
      ensures inputWidth == old(inputWidth) && helpWidth == old(helpWidth)
      ensures old(Valid()) ==> Valid()
    {
      if providers.Some? {
        var ps := providers.value;
        var built: seq<Item> := [];
        for i := 0 to |ps|
          invariant built == Items(ps[..i], configured)
        {
          built := built + [ItemFor(ps[i], configured)];
          assert ps[..i + 1] == ps[..i] + [ps[i]];
        }
        assert ps[..|ps|] == ps;
        items := built;
        cursor := 0;
        var desired := |built| + 2;
        if desired < ListMinHeight {
          desired := ListMinHeight;
        }
        if wHeight > 0 {
          var maxH := Quot(wHeight, 2);
          if desired > maxH {
            desired := maxH;
          }
        }
        listWidth, listHeight := width - 2, desired;
      }
    }

    /** A window-size message: the window is recorded, the input and help follow the dialog's width. */
    method WindowSize(w: int, h: int) returns (cmd: Cmd)
      modifies this
      ensures wWidth == w && wHeight == h
      ensures inputWidth == width - 2 && helpWidth == width - 2
      ensures listWidth == width - 2 && listHeight == Quot(h, 4)
      ensures cmd == FromList
      ensures width == old(width) && items == old(items) && cursor == old(cursor)
      ensures needsAPIKey == old(needsAPIKey) && selectedProvider == old(selectedProvider)
      ensures inputValue == old(inputValue) && inputProviderName == old(inputProviderName)
      ensures old(Valid()) ==> Valid()
    {
      wWidth := w;
      wHeight := h;
      inputWidth := width - 2;
      helpWidth := width - 2;
      listWidth, listHeight := width - 2, Quot(wHeight, 4);
      cmd := FromList;
    }

    /**
      A state-change message of the key input is the input's own business:
      the input is reduced to its value (see "## Left out" in the README),
      so only the routing to it is modelled.
    */
    method APIKeyStateChange() returns (cmd: Cmd)
      ensures cmd == FromInput
    {
      cmd := FromInput;
    }

    /**
      The select key. In list mode it opens the key input for the selected
      provider, if any. In API-key mode it saves the typed key for the
      selected provider (`saveError` is the outcome) and, on success, closes
      the dialog; `save` is the (provider ID, key) pair handed to the store.
    */
    method Select(saveError: Option<string>) returns (cmd: Cmd, save: Option<(string, string)>)
      modifies this
      ensures old(needsAPIKey) && old(selectedProvider).None? ==>
        unchanged(this) && cmd == ReportError(NoProvider) && save == None
      ensures old(needsAPIKey) && old(selectedProvider).Some? ==>
        && unchanged(this)
        && save == Some((old(selectedProvider).value.id, old(inputValue)))
        && cmd == (if saveError.Some? then ReportError(SaveFailed + saveError.value)
                   else CloseAndReportInfo(SavedFor + old(selectedProvider).value.name))
      ensures !old(needsAPIKey) && old(SelectedItem()).None? ==> unchanged(this) && cmd == NoCmd && save == None
      ensures !old(needsAPIKey) && old(SelectedItem()).Some? ==>
        && needsAPIKey && selectedProvider == Some(old(SelectedItem()).value.provider)
        && inputProviderName == selectedProvider.value.name
        && cmd == NoCmd && save == None
        && width == old(width) && wWidth == old(wWidth) && wHeight == old(wHeight)
        && items == old(items) && cursor == old(cursor) && inputValue == old(inputValue)
        && listWidth == old(listWidth) && listHeight == old(listHeight)
        && inputWidth == old(inputWidth) && helpWidth == old(helpWidth)
      ensures old(Valid()) ==> Valid()
      ensures old(Valid()) ==> cmd != ReportError(NoProvider)
    {
      save := None;
      if needsAPIKey {
        var apiKey := inputValue;
        if selectedProvider.None? {
          cmd := ReportError(NoProvider);
          return;
        }
        var providerID := selectedProvider.value.id;
        save := Some((providerID, apiKey));
        if saveError.Some? {
          cmd := ReportError(SaveFailed + saveError.value);
          assert (SaveFailed + saveError.value)[0] != NoProvider[0];
          return;
        }
        cmd := CloseAndReportInfo(SavedFor + selectedProvider.value.name);
        return;
      }
      var sel := SelectedItem();
      if sel.None? {
        cmd := NoCmd;
        return;
      }
      var v := sel.value.provider;
      selectedProvider := Some(v);
      inputProviderName := v.name;
      needsAPIKey := true;
      cmd := NoCmd;
    }

    /** The close key: leaves API-key mode with the input cleared, or closes the dialog from list mode. */
    method Close() returns (cmd: Cmd)
      modifies this
      ensures old(needsAPIKey) ==>
        && !needsAPIKey && selectedProvider == None && inputValue == "" && cmd == NoCmd
        && width == old(width) && wWidth == old(wWidth) && wHeight == old(wHeight)
        && items == old(items) && cursor == old(cursor)
        && listWidth == old(listWidth) && listHeight == old(listHeight)
        && inputProviderName == old(inputProviderName)
        && inputWidth == old(inputWidth) && helpWidth == old(helpWidth)
      ensures !old(needsAPIKey) ==> unchanged(this) && cmd == CloseDialog
      ensures old(Valid()) ==> Valid()
    {
      if needsAPIKey {
        needsAPIKey := false;
        selectedProvider := None;
        inputValue := "";
        cmd := NoCmd;
        return;
      }
      cmd := CloseDialog;
    }

    /** The next key moves the list selection down, wrapping, in either mode. */
    method Next() returns (cmd: Cmd)
      modifies this`cursor
      ensures cursor == Below(old(cursor), |items|) && cmd == FromList
      ensures old(Valid()) ==> Valid()
    {
      if cursor + 1 < |items| {
        cursor := cursor + 1;
      } else if |items| > 0 {
        cursor := 0;
      }
      cmd := FromList;
    }

    /** The previous key moves the list selection up, wrapping, in either mode. */
    method Previous() returns (cmd: Cmd)
      modifies this`cursor
      ensures cursor == Above(old(cursor), |items|) && cmd == FromList
      ensures old(Valid()) ==> Valid()
    {
      if 0 < cursor <= |items| {
        cursor := cursor - 1;
      } else if |items| > 0 {
        cursor := |items| - 1;
      }
      cmd := FromList;
    }

    /**
      Any other key, and a paste: in API-key mode the key input takes it and
      then holds `edited`; in list mode the list takes it.
    */
    method Forward(edited: string) returns (cmd: Cmd)
      modifies this`inputValue
      ensures needsAPIKey ==> inputValue == edited && cmd == FromInput
      ensures !needsAPIKey ==> inputValue == old(inputValue) && cmd == FromList
      ensures old(Valid()) ==> Valid()
    {
      if needsAPIKey {
        inputValue := edited;
        cmd := FromInput;
        return;
      }
      cmd := FromList;
    }

    /** `moveCursor`: shifts a cursor of the inner view by the dialog's position and frame. */
    method MoveCursor(c: Cursor)
      modifies c
      ensures c.y == old(c.y) + DialogPosition(wWidth, wHeight, width).0 + 3
      ensures c.x == old(c.x) + DialogPosition(wWidth, wHeight, width).1 + 2
    {
      var rc := DialogPosition(wWidth, wHeight, width);
      var offset := rc.0 + 3;
      c.y := c.y + offset;
      c.x := c.x + rc.1 + 2;
    }
  }
}
