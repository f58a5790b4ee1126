/**
 * The HTML label control (`HtmlLabel`): its two sizing properties,
 * `AutoSize` (default on) and `AutoSizeHeightOnly` (default off), and the
 * property-changed handler that switches one off when the other is switched
 * on, so that at most one of them is ever on.
 *
 * The property system is modelled as Avalonia's `SetValue` behaves for these
 * properties: a store that raises the changed notification only when the
 * value actually changes, synchronously, before `SetValue` returns.
 */
module Label {
  datatype Property = AutoSizeProperty | AutoSizeHeightOnlyProperty {
    /** The property the handler switches off when this one is switched on. */
    function Other(): Property {
      if AutoSizeProperty? then AutoSizeHeightOnlyProperty else AutoSizeProperty
    }
  }

  /** The values of the two properties. */
  datatype Flags = Flags(autoSize: bool, autoSizeHeightOnly: bool) {
    function Get(p: Property): bool {
      if p.AutoSizeProperty? then autoSize else autoSizeHeightOnly
    }

    function Set(p: Property, v: bool): Flags {
      if p.AutoSizeProperty? then this.(autoSize := v) else this.(autoSizeHeightOnly := v)
    }

    /** At most one of the two is on. */
    predicate Exclusive() {
      !(autoSize && autoSizeHeightOnly)
    }
  }

  /** The registered defaults. */
  const Defaults := Flags(true, false)

  /** A raised property-changed notification: the property and its new value. */
  datatype Change = Change(property: Property, newValue: bool)

  /** The values after `SetValue(p, v)` together with the handler's reaction. */
  function Apply(f: Flags, p: Property, v: bool): (r: Flags)
    ensures r.Get(p) == v
    ensures !v ==> r.Get(p.Other()) == f.Get(p.Other())
    ensures f.Exclusive() ==> r.Exclusive()
    ensures f.Exclusive() && v ==> !r.Get(p.Other())
    ensures f.Get(p) == v ==> r == f
  {
    if f.Get(p) == v then f
    else if v then f.Set(p, true).Set(p.Other(), false)
    else f.Set(p, false)
  }

  /**
   * The notifications `SetValue(p, v)` raises, in order: none when the value
   * does not change; else the change of `p`, followed, when `p` is switched
   * on while the other property is on, by the other's switching off.
   */
  function Notifications(f: Flags, p: Property, v: bool): (r: seq<Change>)
    ensures r == [] <==> f.Get(p) == v
    ensures r != [] ==> r[0] == Change(p, v)
    ensures |r| <= 2
    ensures |r| == 2 ==> v && r[1] == Change(p.Other(), false)
  {
    if f.Get(p) == v then []
    else [Change(p, v)] + (if v && f.Get(p.Other()) then [Change(p.Other(), false)] else [])
  }

  /** The values after a run of settings. */
  function ApplyAll(f: Flags, settings: seq<(Property, bool)>): Flags {
    if settings == [] then f
    else
      var (p, v) := settings[|settings| - 1];
      Apply(ApplyAll(f, settings[..|settings| - 1]), p, v)
  }

  /**
   * From the defaults, however the two properties are set, they are never
   * both on, and the last one set keeps the value it was given.
   */
  lemma {:induction false} NeverBothOn(settings: seq<(Property, bool)>)
    ensures ApplyAll(Defaults, settings).Exclusive()
    ensures settings != [] ==>
      ApplyAll(Defaults, settings).Get(settings[|settings| - 1].0) == settings[|settings| - 1].1
  {
    if settings != [] {
      NeverBothOn(settings[..|settings| - 1]);
    }
  }

  class HtmlLabel {
    var autoSize: bool
    var autoSizeHeightOnly: bool

    function State(): Flags
      reads this
    {
      Flags(autoSize, autoSizeHeightOnly)
    }

    constructor ()
      ensures State() == Defaults
    {
      autoSize, autoSizeHeightOnly := true, false;
    }

    function GetValue(p: Property): (r: bool)
      reads this
      ensures r == State().Get(p)
    {
      if p.AutoSizeProperty? then autoSize else autoSizeHeightOnly
    }

    /**
     * Stores `v` in `p` and, when that changes it, raises the notification.
     * The notifications raised, the nested ones included, are returned in
     * the order they are raised.
     */
    method SetValue(p: Property, v: bool) returns (changes: seq<Change>)
      modifies this
      ensures State() == Apply(old(State()), p, v)
      ensures changes == Notifications(old(State()), p, v)
      decreases if v then 1 else 0, 1
    {
      if GetValue(p) == v {
        return [];
      }
      if p.AutoSizeProperty? {
        autoSize := v;
      } else {
        autoSizeHeightOnly := v;
      }
      var nested := OnPropertyChanged(Change(p, v));
      changes := [Change(p, v)] + nested;
    }

    /** Switching one property on switches the other off. */
    method OnPropertyChanged(e: Change) returns (changes: seq<Change>)
      modifies this
      ensures !e.newValue ==> changes == [] && State() == old(State())
      ensures e.newValue ==> State() == old(State()).Set(e.property.Other(), false)
      ensures e.newValue ==> changes == (if old(GetValue(e.property.Other())) then [Change(e.property.Other(), false)] else [])
      decreases if e.newValue then 1 else 0, 0
    {
      changes := [];
      if e.property.AutoSizeProperty? {
        if e.newValue {
          changes := SetValue(AutoSizeHeightOnlyProperty, false);
        }
      } else if e.property.AutoSizeHeightOnlyProperty? {
        if e.newValue {
          changes := SetValue(AutoSizeProperty, false);
        }
      }
    }

    /** The `AutoSize` setter. */
    method SetAutoSize(value: bool) returns (changes: seq<Change>)
      modifies this
      ensures State() == Apply(old(State()), AutoSizeProperty, value)
      ensures changes == Notifications(old(State()), AutoSizeProperty, value)
      ensures old(State()).Exclusive() ==> State().Exclusive()
    {
      changes := SetValue(AutoSizeProperty, value);
    }

    /** The `AutoSizeHeightOnly` setter. */
    method SetAutoSizeHeightOnly(value: bool) returns (changes: seq<Change>)
      modifies this
      ensures State() == Apply(old(State()), AutoSizeHeightOnlyProperty, value)
      ensures changes == Notifications(old(State()), AutoSizeHeightOnlyProperty, value)
      ensures old(State()).Exclusive() ==> State().Exclusive()
    {
      changes := SetValue(AutoSizeHeightOnlyProperty, value);
    }
  }

  /**
   * A fresh label asked for height-only sizing: `AutoSize` is switched off
   * by the handler, and the two notifications are raised in that order.
   */
  method HeightOnlyScenario() returns (changes: seq<Change>, autoSize: bool, heightOnly: bool)
    ensures changes == [Change(AutoSizeHeightOnlyProperty, true), Change(AutoSizeProperty, false)]
    ensures !autoSize && heightOnly
  {
    var control := new HtmlLabel();
    changes := control.SetAutoSizeHeightOnly(true);
    autoSize, heightOnly := control.autoSize, control.autoSizeHeightOnly;
  }
}
