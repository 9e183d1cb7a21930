/** The editor's generic field update. The app addresses a leaf by a dotted
    path ("client.state", "invoice.discount", ...); here the path and its
    value are one typed `Setter`. After the leaf is assigned, a change to a
    state or to the place of supply re-derives the jurisdiction. */
module StateUpdate {
  import opened InvoiceData

  datatype Setter =
    | SetText(field: TextField, text: string)
    | SetAmount(amountField: AmountField, amount: Field)
    | SetInterState(flag: bool)

  /** The paths starting with "client.state", "invoice.placeOfSupply" or
      "profile.state". */
  predicate IsJurisdictional(s: Setter): (r: bool)
    ensures r ==> s.SetText?
    // every path that writes one of the two states the flag compares is one
    ensures s.SetText? && (s.field == ClientState || s.field == ProfileState) ==> r
  {
    s.SetText? && s.field in {ClientState, InvoicePlaceOfSupply, ProfileState}
  }

  /** The place of supply the app derives: the client's state, or the
      business's state when the client has none. */
  function DerivedPlace(d: AppData): (p: string)
    ensures p == "" ==> d.client.state == "" && d.profile.state == ""
    ensures p == d.client.state || p == d.profile.state
    ensures d.client.state != "" ==> p == d.client.state
  {
    if d.client.state != "" then d.client.state else d.profile.state
  }

  /** The jurisdiction flag agrees with the two states. */
  predicate Consistent(d: AppData)
  {
    d.invoice.interState == (d.profile.state != d.client.state)
  }

  /** `update(path, value)` applied to the previous state `prev`: clone,
      assign the leaf, then, for a jurisdictional path, overwrite
      `interState` and `placeOfSupply` on the clone. */
  method Update(prev: AppData, s: Setter) returns (next: AppData)
    // the leaf named by the setter takes its value; every other text leaf stays,
    // except that the place of supply is re-derived on a jurisdictional path
    ensures forall f :: f != InvoicePlaceOfSupply ==>
      GetText(next, f) == (if s.SetText? && s.field == f then s.text else GetText(prev, f))
    ensures forall a ::
      GetAmount(next, a) == (if s.SetAmount? && s.amountField == a then s.amount else GetAmount(prev, a))
    ensures next.invoice.items == prev.invoice.items
    ensures next.proUnlocked == prev.proUnlocked
    ensures IsJurisdictional(s) ==> Consistent(next) && next.invoice.placeOfSupply == DerivedPlace(next)
    ensures !IsJurisdictional(s) ==> next.invoice.placeOfSupply == prev.invoice.placeOfSupply
    ensures !IsJurisdictional(s) ==>
      next.invoice.interState == (if s.SetInterState? then s.flag else prev.invoice.interState)
    // only a direct switch of the flag can make it disagree with the states
    ensures Consistent(prev) && !s.SetInterState? ==> Consistent(next)
  {
    next := prev;  // structuredClone(prev)
    match s {
      case SetText(f, v) => next := WithText(next, f, v);
      case SetAmount(a, v) => next := WithAmount(next, a, v);
      case SetInterState(b) => next := next.(invoice := next.invoice.(interState := b));
    }
    if IsJurisdictional(s) {
      var inter := next.profile.state != next.client.state;
      next := next.(invoice := next.invoice.(interState := inter));
      next := next.(invoice := next.invoice.(placeOfSupply := DerivedPlace(next)));
    }
  }

  /** Picking a place of supply by hand never takes effect: the same update
      re-derives the place from the two states, which the pick does not
      touch. It also resets the `interState` flag to the comparison of the
      two states, undoing a switch set by hand; nothing else changes. */
  method PickPlaceOfSupply(prev: AppData, place: string) returns (next: AppData)
    ensures next.invoice.placeOfSupply == DerivedPlace(prev)
    ensures Consistent(next)
    ensures next.invoice.placeOfSupply == place ==> place == DerivedPlace(prev)
    ensures next == prev.(invoice := prev.invoice.(
      interState := prev.profile.state != prev.client.state,
      placeOfSupply := DerivedPlace(prev)))
  {
    next := Update(prev, SetText(InvoicePlaceOfSupply, place));
    assert GetText(next, ClientState) == GetText(prev, ClientState);
    assert GetText(next, ProfileState) == GetText(prev, ProfileState);
    var want := prev.(invoice := prev.invoice.(
      interState := prev.profile.state != prev.client.state,
      placeOfSupply := DerivedPlace(prev)));
    forall g ensures GetText(next, g) == GetText(want, g) {}
    SameLeavesSameData(next, want);
  }
}
