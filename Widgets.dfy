/**
 * The Swing widgets whose state the dialogs read and write, reduced to that
 * state: a combo box of signature algorithms (its list model and selected
 * item) and a text field (its text).
 */
module Widgets {
  import opened Signatures

  /**
   * What JComboBox.getSelectedItem() yields: nothing (null), one of the
   * listed signature types, or, in an editable box, the text the user typed.
   */
  datatype ComboSelection = NoSelection | Item(item: SignatureType) | Typed(text: string)

  /** A JComboBox<SignatureType> over a DefaultComboBoxModel. */
  class SignatureComboBox {
    var items: seq<SignatureType>
    var selected: ComboSelection

    constructor ()
      ensures items == [] && selected == NoSelection
    {
      items := [];
      selected := NoSelection;
    }

    /** removeAllItems(): empties the list and clears the selection. */
    method RemoveAllItems()
      modifies this
      ensures items == [] && selected == NoSelection
    {
      items := [];
      selected := NoSelection;
    }

    /**
     * addItem(t): appends t; the model selects the first element added to
     * a list that is empty and has nothing selected.
     */
    method AddItem(t: SignatureType)
      modifies this
      ensures items == old(items) + [t]
      ensures selected == if old(items) == [] && old(selected) == NoSelection then Item(t) else old(selected)
    {
      if items == [] && selected == NoSelection {
        selected := Item(t);
      }
      items := items + [t];
    }

    /** setSelectedItem(t): selects t when the list holds it. */
    method SetSelectedItem(t: SignatureType)
      modifies this
      ensures items == old(items)
      ensures selected == if t in items then Item(t) else old(selected)
    {
      if t in items {
        selected := Item(t);
      }
    }

    /**
     * setSelectedIndex(i): -1 clears the selection, an index of the list
     * selects that element, and any other index throws
     * IllegalArgumentException, reported here as ok == false.
     */
    method SetSelectedIndex(i: int) returns (ok: bool)
      modifies this
      ensures items == old(items)
      ensures ok <==> -1 <= i < |items|
      ensures selected == if i == -1 then NoSelection else if ok then Item(items[i]) else old(selected)
    {
      ok := -1 <= i < |items|;
      if i == -1 {
        selected := NoSelection;
      } else if ok {
        selected := Item(items[i]);
      }
    }
  }

  /**
   * The loop `for (SignatureType t : ts) combo.addItem(t)` that the dialogs
   * write out each time they fill a combo box.
   */
  method AddAll(combo: SignatureComboBox, ts: seq<SignatureType>)
    modifies combo
    ensures combo.items == old(combo.items) + ts
    ensures combo.selected ==
              if old(combo.items) == [] && old(combo.selected) == NoSelection && ts != []
              then Item(ts[0]) else old(combo.selected)
  {
    for i := 0 to |ts|
      invariant combo.items == old(combo.items) + ts[..i]
      invariant combo.selected ==
                  if old(combo.items) == [] && old(combo.selected) == NoSelection && i > 0
                  then Item(ts[0]) else old(combo.selected)
    {
      combo.AddItem(ts[i]);
    }
    assert ts[..|ts|] == ts;
  }

  /** A JTextField, reduced to its text. */
  class TextField {
    var text: string

    constructor (initial: string)
      ensures text == initial
    {
      text := initial;
    }

    method SetText(s: string)
      modifies this
      ensures text == s
    {
      text := s;
    }
  }
}
