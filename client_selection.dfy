/** Row selection in the browser: the checkboxes of the current tab, the
    action bar `updateActionBar` keeps in step with them, "Select All" /
    "Deselect All", and the ids `startBatchAction` reads back from the
    checked boxes with `parseInt`. */
module ClientSelection {

  import opened Wrappers
  import opened Text
  import opened ClientProgress

  /** One `.user-checkbox`: its `value`, whether it is enabled, whether it is checked. */
  datatype Box = Box(value: string, enabled: bool, checked: bool)

  /** Disabled boxes are rendered unchecked and nothing checks them. */
  predicate DisabledUnchecked(bs: seq<Box>) {
    forall i :: 0 <= i < |bs| && !bs[i].enabled ==> !bs[i].checked
  }

  /** `querySelectorAll('.user-checkbox:not(:disabled)').length`. */
  function CountEnabled(bs: seq<Box>): nat
    decreases |bs|
  {
    if bs == [] then 0 else CountEnabled(bs[..|bs| - 1]) + (if bs[|bs| - 1].enabled then 1 else 0)
  }

  /** `querySelectorAll('.user-checkbox:checked').length`. */
  function CountChecked(bs: seq<Box>): nat
    decreases |bs|
  {
    if bs == [] then 0 else CountChecked(bs[..|bs| - 1]) + (if bs[|bs| - 1].checked then 1 else 0)
  }

  /** `allSelected` as `updateActionBar` computes it. */
  predicate AllSelected(bs: seq<Box>) {
    CountChecked(bs) == CountEnabled(bs) && CountEnabled(bs) > 0
  }

  /** With disabled boxes unchecked, no more boxes are checked than enabled,
      the two counts agree exactly when every enabled box is checked, and
      there is an enabled box exactly when the count is positive. */
  lemma {:induction false} CountsCompared(bs: seq<Box>)
    requires DisabledUnchecked(bs)
    ensures CountChecked(bs) <= CountEnabled(bs)
    ensures CountChecked(bs) == CountEnabled(bs) <==> forall i :: 0 <= i < |bs| && bs[i].enabled ==> bs[i].checked
    ensures CountEnabled(bs) > 0 <==> exists i :: 0 <= i < |bs| && bs[i].enabled
    decreases |bs|
  {
    if bs != [] {
      var init := bs[..|bs| - 1];
      var last := |bs| - 1;
      assert forall i :: 0 <= i < |init| ==> init[i] == bs[i];
      CountsCompared(init);
      if exists i :: 0 <= i < |bs| && bs[i].enabled {
        var i :| 0 <= i < |bs| && bs[i].enabled;
        if i < last {
          assert init[i].enabled;
        }
      }
      if CountChecked(bs) == CountEnabled(bs) {
        forall i | 0 <= i < |bs| && bs[i].enabled ensures bs[i].checked {
          if i < last {
            assert init[i] == bs[i];
          }
        }
      }
    }
  }

  /** `allSelected` holds exactly when there is an enabled box and every
      enabled box is checked. */
  lemma {:induction false} AllSelectedMeans(bs: seq<Box>)
    requires DisabledUnchecked(bs)
    ensures AllSelected(bs) <==>
      (exists i :: 0 <= i < |bs| && bs[i].enabled) && (forall i :: 0 <= i < |bs| && bs[i].enabled ==> bs[i].checked)
  {
    CountsCompared(bs);
  }

  /** The boxes after every enabled one has been set to `flag`. */
  function Toggled(bs: seq<Box>, flag: bool): (r: seq<Box>)
    ensures |r| == |bs|
    ensures forall i :: 0 <= i < |bs| ==> r[i].enabled == bs[i].enabled && r[i].value == bs[i].value
    ensures forall i :: 0 <= i < |bs| ==> r[i].checked == if bs[i].enabled then flag else bs[i].checked
  {
    seq(|bs|, i requires 0 <= i < |bs| => if bs[i].enabled then bs[i].(checked := flag) else bs[i])
  }

  /** Toggling every enabled box leaves the disabled ones alone, checks
      (or unchecks) every enabled one, and keeps every value. */
  lemma {:induction false} ToggledCounts(bs: seq<Box>, flag: bool)
    requires DisabledUnchecked(bs)
    ensures DisabledUnchecked(Toggled(bs, flag))
    ensures CountEnabled(Toggled(bs, flag)) == CountEnabled(bs)
    ensures CountChecked(Toggled(bs, flag)) == if flag then CountEnabled(bs) else 0
    ensures forall i :: 0 <= i < |bs| ==> Toggled(bs, flag)[i].value == bs[i].value
    ensures forall i :: 0 <= i < |bs| ==> !bs[i].enabled ==> Toggled(bs, flag)[i] == bs[i]
    decreases |bs|
  {
    if bs != [] {
      var init := bs[..|bs| - 1];
      assert Toggled(bs, flag)[..|bs| - 1] == Toggled(init, flag);
      ToggledCounts(init, flag);
    }
  }

  /** The action bar (`#action-bar`): shown, the count, the batch button's
      text, and the select-all state and its link text. The progress
      overlay's `ClientProgress.View.actionBar` is the same element's
      visibility, which `closeProgress()` clears. */
  datatype Bar = Bar(visible: bool, count: nat, actionText: string, allSelected: bool, selectAllText: string)

  /** The batch button text: unfollowing on the not-following-back tab, cancelling elsewhere. */
  function ActionText(tab: Tab, n: nat): string {
    (if tab == NfbTab then "Unfollow Selected (" else "Cancel Selected (") + NatToDecimal(n) + ")"
  }

  /** `updateActionBar()`: with boxes checked the bar shows their count;
      with none it is hidden and keeps its old count and text. */
  function UpdateBar(bar: Bar, tab: Tab, bs: seq<Box>): Bar {
    var n := CountChecked(bs);
    var all := AllSelected(bs);
    var b := if n > 0 then bar.(visible := true, count := n, actionText := ActionText(tab, n)) else bar.(visible := false);
    b.(allSelected := all, selectAllText := if all then "Deselect All" else "Select All")
  }

  /** "Select All" checks every enabled box: the bar shows all of them as
      selected and offers "Deselect All"; "Deselect All" empties the
      selection and hides the bar. */
  lemma {:induction false} SelectAllEffect(bs: seq<Box>, tab: Tab, bar: Bar)
    requires DisabledUnchecked(bs) && CountEnabled(bs) > 0
    ensures var b := UpdateBar(bar, tab, Toggled(bs, true));
      && b.visible && b.count == CountEnabled(bs) && b.allSelected && b.selectAllText == "Deselect All"
      && b.actionText == ActionText(tab, CountEnabled(bs))
    ensures var b := UpdateBar(bar, tab, Toggled(bs, false));
      && !b.visible && !b.allSelected && b.selectAllText == "Select All"
  {
    ToggledCounts(bs, true);
    ToggledCounts(bs, false);
  }

  /** The batch button names the endpoint the batch will use. */
  lemma {:induction false} ActionTextNamesEndpoint(tab: Tab, n: nat)
    ensures ActionText(tab, n)[0] == 'U' <==> EndpointOf(BatchSelected(tab)) == UnfollowEndpoint
    ensures ActionText(tab, n)[0] == 'C' <==> EndpointOf(BatchSelected(tab)) == CancelEndpoint
  {
  }

  /** The current tab's checkboxes together with the action bar. */
  class SelectionPanel {
    var boxes: seq<Box>
    var bar: Bar

    constructor (bs: seq<Box>)
      ensures boxes == bs && bar == Bar(false, 0, "", false, "Select All")
    {
      boxes := bs;
      bar := Bar(false, 0, "", false, "Select All");
    }

    /** A checkbox's `onchange`. */
    method UpdateActionBar(tab: Tab)
      modifies this
      ensures boxes == old(boxes) && bar == UpdateBar(old(bar), tab, boxes)
    {
      bar := UpdateBar(bar, tab, boxes);
    }

    /** `toggleSelectAll()`: flips `allSelected`, sets every enabled box to
        it, then updates the bar. */
    method ToggleSelectAll(tab: Tab)
      modifies this
      ensures boxes == Toggled(old(boxes), !old(bar.allSelected))
      ensures bar == UpdateBar(old(bar), tab, boxes)
    {
      var flag := !bar.allSelected;
      bar := bar.(allSelected := flag);
      var i := 0;
      while i < |boxes|
        invariant 0 <= i <= |boxes| && |boxes| == |old(boxes)|
        invariant forall k :: 0 <= k < i ==> boxes[k] == Toggled(old(boxes), flag)[k]
        invariant forall k :: i <= k < |boxes| ==> boxes[k] == old(boxes)[k]
        invariant bar == old(bar).(allSelected := flag)
      {
        if boxes[i].enabled {
          boxes := boxes[i := boxes[i].(checked := flag)];
        }
        i := i + 1;
      }
      assert boxes == Toggled(old(boxes), flag);
      bar := UpdateBar(bar, tab, boxes);
    }
  }

  // ------------------------------------------------------------------
  // parseInt
  // ------------------------------------------------------------------

  predicate IsHexDigit(c: char) {
    IsDigit(c) || 'a' <= c <= 'f' || 'A' <= c <= 'F'
  }

  predicate IsRadixDigit(c: char, hex: bool) {
    if hex then IsHexDigit(c) else IsDigit(c)
  }

  function RadixDigitValue(c: char, hex: bool): nat
    requires IsRadixDigit(c, hex)
  {
    if IsDigit(c) then (c as int) - ('0' as int)
    else if 'a' <= c <= 'f' then (c as int) - ('a' as int) + 10
    else (c as int) - ('A' as int) + 10
  }

  /** The longest prefix of `s` made of digits of the radix. */
  function DigitPrefix(s: string, hex: bool): (p: string)
    ensures |p| <= |s| && p == s[..|p|]
    ensures forall i :: 0 <= i < |p| ==> IsRadixDigit(p[i], hex)
    ensures |p| < |s| ==> !IsRadixDigit(s[|p|], hex)
  {
    if s == [] || !IsRadixDigit(s[0], hex) then [] else [s[0]] + DigitPrefix(s[1..], hex)
  }

  function RadixValue(s: string, hex: bool): nat
    requires forall i :: 0 <= i < |s| ==> IsRadixDigit(s[i], hex)
  {
    if s == [] then 0
    else RadixValue(s[..|s| - 1], hex) * (if hex then 16 else 10) + RadixDigitValue(s[|s| - 1], hex)
  }

  /** JavaScript `parseInt(s)` without a radix: leading whitespace skipped,
      an optional sign, a `0x`/`0X` prefix selecting base 16, then the
      longest run of digits; `None` is `NaN`, when that run is empty. */
  function ParseInt(s: string): Option<int> {
    var t := TrimStart(JavaScript, s);
    var negative := t != [] && t[0] == '-';
    var u := if t != [] && (t[0] == '-' || t[0] == '+') then t[1..] else t;
    var hex := |u| >= 2 && u[0] == '0' && (u[1] == 'x' || u[1] == 'X');
    var body := if hex then u[2..] else u;
    var z := DigitPrefix(body, hex);
    var v: int := if z == [] then 0 else RadixValue(z, hex);
    if z == [] then None else Some(if negative then -v else v)
  }

  lemma {:induction false} RadixDecimal(s: string)
    requires AllDigits(s)
    ensures RadixValue(s, false) == DigitsValue(s)
    decreases |s|
  {
    if s != [] {
      RadixDecimal(s[..|s| - 1]);
    }
  }

  lemma {:induction false} DigitPrefixOfDigits(s: string)
    requires AllDigits(s)
    ensures DigitPrefix(s, false) == s
    decreases |s|
  {
    if s != [] {
      DigitPrefixOfDigits(s[1..]);
    }
  }

  lemma {:induction false} DigitIsNoSpace(c: char)
    requires IsDigit(c)
    ensures !IsSpace(JavaScript, c) && c != '-' && c != '+' && c != 'x' && c != 'X'
  {
  }

  /** A run of decimal digits parses as its value. */
  lemma {:induction false} ParseUnsigned(d: string)
    requires d != [] && AllDigits(d)
    ensures ParseInt(d) == Some(DigitsValue(d))
  {
    DigitIsNoSpace(d[0]);
    assert TrimStart(JavaScript, d) == d;
    if |d| >= 2 {
      DigitIsNoSpace(d[1]);
    }
    DigitPrefixOfDigits(d);
    RadixDecimal(d);
  }

  /** A minus sign followed by decimal digits parses as the negated value. */
  lemma {:induction false} ParseNegative(d: string)
    requires d != [] && AllDigits(d)
    ensures ParseInt("-" + d) == Some(0 - DigitsValue(d) as int)
  {
    var s := "-" + d;
    assert s[0] == '-';
    assert !IsSpace(JavaScript, s[0]);
    assert TrimStart(JavaScript, s) == s;
    assert s[1..] == d;
    if |d| >= 2 {
      DigitIsNoSpace(d[1]);
    }
    DigitPrefixOfDigits(d);
    RadixDecimal(d);
  }

  /** `parseInt` reads back every integer the page printed into a checkbox value. */
  lemma {:induction false} ParseIntRoundTrip(i: int)
    ensures ParseInt(IntToDecimal(i)) == Some(i)
  {
    var n := if i < 0 then -i else i;
    DecimalRoundTrip(n);
    if i < 0 {
      ParseNegative(NatToDecimal(n));
    } else {
      ParseUnsigned(NatToDecimal(n));
    }
  }

  /** The value of a box without a user id is empty, which parses as `NaN`. */
  lemma {:induction false} EmptyValueIsNaN()
    ensures ParseInt("") == None
  {
  }

  /** The values of the checked boxes, in document order. */
  function CheckedValues(bs: seq<Box>): (vs: seq<string>)
    ensures |vs| == CountChecked(bs)
    decreases |bs|
  {
    if bs == [] then []
    else CheckedValues(bs[..|bs| - 1]) + (if bs[|bs| - 1].checked then [bs[|bs| - 1].value] else [])
  }

  /** Each value read with `parseInt`, the values that give NaN dropped. */
  function ParsedIds(values: seq<string>): (ids: seq<int>)
    ensures |ids| <= |values|
    decreases |values|
  {
    if values == [] then []
    else
      var p := ParseInt(values[|values| - 1]);
      ParsedIds(values[..|values| - 1]) + (if p.Some? then [p.value] else [])
  }

  /** The `user_ids` `startBatchAction` posts. */
  function BatchIds(bs: seq<Box>): (ids: seq<int>)
    ensures |ids| <= CountChecked(bs)
  {
    ParsedIds(CheckedValues(bs))
  }

  /** The values posted are exactly those of the checked boxes. */
  lemma {:induction false} CheckedValuesMembers(bs: seq<Box>)
    ensures forall x :: x in CheckedValues(bs) <==> exists i :: 0 <= i < |bs| && bs[i].checked && bs[i].value == x
    decreases |bs|
  {
    if bs != [] {
      var init := bs[..|bs| - 1];
      CheckedValuesMembers(init);
      forall x ensures x in CheckedValues(bs) <==> exists i :: 0 <= i < |bs| && bs[i].checked && bs[i].value == x {
        if x in CheckedValues(init) {
          var i :| 0 <= i < |init| && init[i].checked && init[i].value == x;
          assert bs[i] == init[i];
        }
        if exists i :: 0 <= i < |bs| && bs[i].checked && bs[i].value == x {
          var i :| 0 <= i < |bs| && bs[i].checked && bs[i].value == x;
          if i < |init| {
            assert init[i] == bs[i];
          }
        }
      }
    }
  }

  /** The ids sent are exactly the numbers `parseInt` reads from the values. */
  lemma {:induction false} ParsedIdsMembers(values: seq<string>)
    ensures forall n :: n in ParsedIds(values) <==> exists i :: 0 <= i < |values| && ParseInt(values[i]) == Some(n)
  {
    forall n ensures n in ParsedIds(values) <==> exists i :: 0 <= i < |values| && ParseInt(values[i]) == Some(n) {
      if n in ParsedIds(values) {
        ParsedIdsSound(values, n);
      }
      if exists i :: 0 <= i < |values| && ParseInt(values[i]) == Some(n) {
        var i :| 0 <= i < |values| && ParseInt(values[i]) == Some(n);
        ParsedIdsComplete(values, i, n);
      }
    }
  }

  /** Every id sent was read from one of the values. */
  lemma {:induction false} ParsedIdsSound(values: seq<string>, n: int)
    requires n in ParsedIds(values)
    ensures exists i :: 0 <= i < |values| && ParseInt(values[i]) == Some(n)
    decreases |values|
  {
    var init, last := values[..|values| - 1], values[|values| - 1];
    var p := ParseInt(last);
    var tail := if p.Some? then [p.value] else [];
    assert ParsedIds(values) == ParsedIds(init) + tail;
    if n in ParsedIds(init) {
      ParsedIdsSound(init, n);
      var i :| 0 <= i < |init| && ParseInt(init[i]) == Some(n);
      assert values[i] == init[i];
    } else {
      assert values[|values| - 1] == last;
    }
  }

  /** Every value that reads as a number contributes it. */
  lemma {:induction false} ParsedIdsComplete(values: seq<string>, i: nat, n: int)
    requires i < |values| && ParseInt(values[i]) == Some(n)
    ensures n in ParsedIds(values)
    decreases |values|
  {
    var init, last := values[..|values| - 1], values[|values| - 1];
    var p := ParseInt(last);
    var tail := if p.Some? then [p.value] else [];
    assert ParsedIds(values) == ParsedIds(init) + tail;
    if i < |init| {
      assert init[i] == values[i];
      ParsedIdsComplete(init, i, n);
    }
  }

  /** A batch holds exactly the ids read from checked boxes; a checked box
      whose value is not a number contributes nothing. */
  lemma {:induction false} BatchIdsMembers(bs: seq<Box>)
    ensures forall n :: n in BatchIds(bs) <==> exists i :: 0 <= i < |bs| && bs[i].checked && ParseInt(bs[i].value) == Some(n)
  {
    var vs := CheckedValues(bs);
    CheckedValuesMembers(bs);
    ParsedIdsMembers(vs);
    forall n ensures n in BatchIds(bs) <==> exists i :: 0 <= i < |bs| && bs[i].checked && ParseInt(bs[i].value) == Some(n) {
      if n in BatchIds(bs) {
        var j :| 0 <= j < |vs| && ParseInt(vs[j]) == Some(n);
        assert vs[j] in vs;
      }
      if exists i :: 0 <= i < |bs| && bs[i].checked && ParseInt(bs[i].value) == Some(n) {
        var i :| 0 <= i < |bs| && bs[i].checked && ParseInt(bs[i].value) == Some(n);
        assert bs[i].value in vs;
        var j :| 0 <= j < |vs| && vs[j] == bs[i].value;
      }
    }
  }

  /** The printed form of each id. */
  function Decimals(ids: seq<int>): (vs: seq<string>)
    ensures |vs| == |ids|
    decreases |ids|
  {
    if ids == [] then [] else Decimals(ids[..|ids| - 1]) + [IntToDecimal(ids[|ids| - 1])]
  }

  /** Checked boxes holding printed ids give those ids back, in order. */
  lemma {:induction false} ParsedIdsOfDecimals(ids: seq<int>)
    ensures ParsedIds(Decimals(ids)) == ids
    decreases |ids|
  {
    if ids != [] {
      var init, last := ids[..|ids| - 1], ids[|ids| - 1];
      ParsedIdsOfDecimals(init);
      assert ids == init + [last];
      DecimalsSnoc(init, last);
    }
  }

  lemma {:induction false} DecimalsSnoc(init: seq<int>, last: int)
    requires ParsedIds(Decimals(init)) == init
    ensures ParsedIds(Decimals(init + [last])) == init + [last]
  {
    var ids := init + [last];
    var vs := Decimals(ids);
    assert ids[..|ids| - 1] == init;
    assert vs == Decimals(init) + [IntToDecimal(last)];
    ParseIntRoundTrip(last);
    assert vs[..|vs| - 1] == Decimals(init);
  }
}
