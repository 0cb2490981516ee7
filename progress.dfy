/** The progress bar: the filled percentage, the defaults of its optional
    props, and the height and colour classes chosen by size and variant. */
module Progress {
  import opened Wrappers

  datatype Variant = Default | Success | Warning | Error
  datatype Size = Small | Medium | Large

  /** The props as passed; `None` is an omitted prop. */
  datatype Props = Props(value: real, max: Option<real>, showLabel: Option<bool>, variant: Option<Variant>, size: Option<Size>)

  /** The props after the destructuring defaults have been applied. */
  datatype Settings = Settings(value: real, max: real, showLabel: bool, variant: Variant, size: Size)

  function WithDefaults(p: Props): (s: Settings)
    ensures s.value == p.value
    ensures p.max.None? ==> s.max == 100.0
    ensures p.showLabel.None? ==> !s.showLabel
    ensures p.variant.None? ==> s.variant == Default
    ensures p.size.None? ==> s.size == Medium
    ensures p.max.Some? ==> s.max == p.max.value
    ensures p.showLabel.Some? ==> s.showLabel == p.showLabel.value
    ensures p.variant.Some? ==> s.variant == p.variant.value
    ensures p.size.Some? ==> s.size == p.size.value
  {
    Settings(
      p.value,
      match p.max case Some(m) => m case None => 100.0,
      match p.showLabel case Some(b) => b case None => false,
      match p.variant case Some(v) => v case None => Default,
      match p.size case Some(z) => z case None => Medium)
  }

  function Clamp(x: real): real {
    if x < 0.0 then 0.0 else if x > 100.0 then 100.0 else x
  }

  /** `Math.min(Math.max((value / max) * 100, 0), 100)`. A zero `max` divides
      by zero as JavaScript does: a positive value gives Infinity, clamped to
      100; a negative one gives -Infinity, clamped to 0; zero gives NaN, shown
      here as `None`. */
  function Percentage(value: real, max: real): (r: Option<real>)
    ensures r.None? <==> max == 0.0 && value == 0.0
    ensures r.Some? ==> 0.0 <= r.value <= 100.0
  {
    if max == 0.0 then
      if value > 0.0 then Some(100.0) else if value < 0.0 then Some(0.0) else None
    else
      Some(Clamp((value / max) * 100.0))
  }

  /** Within range the bar shows the exact share of `max`. */
  lemma PercentageExactInRange(value: real, max: real)
    requires max > 0.0 && 0.0 <= value <= max
    ensures Percentage(value, max) == Some(value / max * 100.0)
  {
    assert value / max <= 1.0 by {
      assert value / max * max == value;
    }
  }

  /** Outside the range the bar is empty or full. */
  lemma PercentageClamps(value: real, max: real)
    requires max > 0.0
    ensures value <= 0.0 ==> Percentage(value, max) == Some(0.0)
    ensures value >= max ==> Percentage(value, max) == Some(100.0)
  {
    if value <= 0.0 {
      assert value / max <= 0.0;
    }
    if value >= max {
      assert value / max >= 1.0 by {
        assert value / max * max == value;
      }
    }
  }

  /** A larger value never shows a smaller bar. */
  lemma PercentageMonotone(v: real, w: real, max: real)
    requires max > 0.0 && v <= w
    ensures Percentage(v, max).value <= Percentage(w, max).value
  {
    assert v / max <= w / max by {
      assert (w / max - v / max) * max == w - v;
    }
  }

  /** The height class of each size: exactly one of the three keys of the
      class object is switched on. */
  function HeightClasses(size: Size): (r: seq<string>)
    ensures |r| == 1
    ensures size == Small <==> r == ["h-1.5"]
    ensures size == Medium <==> r == ["h-2.5"]
    ensures size == Large <==> r == ["h-4"]
  {
    var entries := [("h-1.5", size == Small), ("h-2.5", size == Medium), ("h-4", size == Large)];
    var on := match size case Small => 0 case Medium => 1 case Large => 2;
    ActiveKeysOneHot(entries, on);
    ActiveKeys(entries)
  }

  /** The colour class of each variant, chosen the same way. */
  function BarClasses(variant: Variant): (r: seq<string>)
    ensures |r| == 1
    ensures variant == Default <==> r == ["bg-primary"]
    ensures variant == Success <==> r == ["bg-green-500"]
    ensures variant == Warning <==> r == ["bg-amber-500"]
    ensures variant == Error <==> r == ["bg-red-500"]
  {
    var entries := [("bg-primary", variant == Default), ("bg-green-500", variant == Success),
                    ("bg-amber-500", variant == Warning), ("bg-red-500", variant == Error)];
    var on := match variant case Default => 0 case Success => 1 case Warning => 2 case Error => 3;
    ActiveKeysOneHot(entries, on);
    ActiveKeys(entries)
  }

  /** The keys of a class object whose condition holds, in key order. */
  function ActiveKeys(entries: seq<(string, bool)>): (r: seq<string>)
    ensures forall k :: k in r ==> exists e :: e in entries && e.0 == k && e.1
  {
    if entries == [] then []
    else (if entries[0].1 then [entries[0].0] else []) + ActiveKeys(entries[1..])
  }

  /** With exactly one condition on, that key alone is active. */
  lemma {:induction false} ActiveKeysOneHot(entries: seq<(string, bool)>, on: nat)
    requires on < |entries| && entries[on].1
    requires forall j :: 0 <= j < |entries| && j != on ==> !entries[j].1
    ensures ActiveKeys(entries) == [entries[on].0]
  {
    if on == 0 {
      ActiveKeysNone(entries[1..]);
    } else {
      ActiveKeysOneHot(entries[1..], on - 1);
    }
  }

  lemma {:induction false} ActiveKeysNone(entries: seq<(string, bool)>)
    requires forall j :: 0 <= j < |entries| ==> !entries[j].1
    ensures ActiveKeys(entries) == []
  {
    if entries != [] {
      ActiveKeysNone(entries[1..]);
    }
  }

  /** The label under the bar (value and max) is shown only on request. */
  function LabelShown(s: Settings): (r: Option<(real, real)>)
    ensures r.Some? <==> s.showLabel
    ensures r.Some? ==> r.value == (s.value, s.max)
  {
    if s.showLabel then Some((s.value, s.max)) else None
  }
}
