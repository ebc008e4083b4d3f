/** The input-axis abstraction of src/includes/INPUT.h: an axis owns two
    "positive" and two "negative" key codes and resolves the current key
    state to -1, 0 or +1. */
module Input {
  import opened GlfwKeys

  /** One entry of an axis's scan order: a key and the value the axis takes
      when that key is the first one found down. */
  datatype Binding = Binding(key: int, value: int)

  /** The order in which an axis examines its keys: slot by slot, the
      positive key of a slot before its negative key
      (pos[0], neg[0], pos[1], neg[1], ...). */
  function ScanOrder(pos: seq<int>, neg: seq<int>): (order: seq<Binding>)
    requires |pos| == |neg|
    ensures |order| == 2 * |pos|
    ensures forall i :: 0 <= i < |pos| ==> order[2 * i] == Binding(pos[i], 1)
    ensures forall i :: 0 <= i < |pos| ==> order[2 * i + 1] == Binding(neg[i], -1)
    decreases |pos|
  {
    if pos == [] then []
    else
      var rest := ScanOrder(pos[1..], neg[1..]);
      assert forall i :: 1 <= i < |pos| ==> pos[i] == pos[1..][i - 1] && neg[i] == neg[1..][i - 1];
      [Binding(pos[0], 1), Binding(neg[0], -1)] + rest
  }

  /** The value of the first binding in `order` whose key is down, or 0 when
      none is. */
  function FirstPressed(order: seq<Binding>, pressed: set<int>): int
  {
    if order == [] then 0
    else if order[0].key in pressed then order[0].value
    else FirstPressed(order[1..], pressed)
  }

  /** The value an axis with these key slots reports for a key state. */
  function AxisValue(pos: seq<int>, neg: seq<int>, pressed: set<int>): int
    requires |pos| == |neg|
  {
    FirstPressed(ScanOrder(pos, neg), pressed)
  }

  /** One step of the scan: the first slot decides if one of its keys is
      down, the remaining slots otherwise. */
  lemma AxisValueStep(pos: seq<int>, neg: seq<int>, pressed: set<int>)
    requires |pos| == |neg| > 0
    ensures AxisValue(pos, neg, pressed) ==
      if pos[0] in pressed then 1
      else if neg[0] in pressed then -1
      else AxisValue(pos[1..], neg[1..], pressed)
  {
    var order, rest := ScanOrder(pos, neg), ScanOrder(pos[1..], neg[1..]);
    assert order == [Binding(pos[0], 1), Binding(neg[0], -1)] + rest;
    assert order[1..] == [Binding(neg[0], -1)] + rest;
    assert order[1..][1..] == rest;
    assert FirstPressed(order[1..], pressed) ==
      if neg[0] in pressed then -1 else FirstPressed(rest, pressed);
  }

  /** None of the keys of a scan order is down. */
  predicate NoneDown(order: seq<Binding>, pressed: set<int>)
  {
    forall i :: 0 <= i < |order| ==> order[i].key !in pressed
  }

  // ---------------------------------------------------------------------
  // The meaning of FirstPressed: the first key found down decides.

  lemma {:induction false} FirstDownDecides(order: seq<Binding>, pressed: set<int>, k: nat)
    requires k < |order| && order[k].key in pressed
    requires forall j :: 0 <= j < k ==> order[j].key !in pressed
    ensures FirstPressed(order, pressed) == order[k].value
  {
    if k > 0 {
      assert order[0].key !in pressed;
      FirstDownDecides(order[1..], pressed, k - 1);
    }
  }

  lemma {:induction false} NoneDownIsZero(order: seq<Binding>, pressed: set<int>)
    requires NoneDown(order, pressed)
    ensures FirstPressed(order, pressed) == 0
  {
    if order != [] {
      assert order[0].key !in pressed;
      NoneDownIsZero(order[1..], pressed);
    }
  }

  /** Conversely, a non-zero result is the value of a key that is down and
      that comes before every other key that is down. */
  lemma {:induction false} FirstPressedIsFirstDown(order: seq<Binding>, pressed: set<int>)
    ensures var r := FirstPressed(order, pressed);
      r == 0 || exists k :: 0 <= k < |order| && order[k].key in pressed && order[k].value == r &&
                            forall j :: 0 <= j < k ==> order[j].key !in pressed
  {
    if order != [] && order[0].key !in pressed {
      FirstPressedIsFirstDown(order[1..], pressed);
      var r := FirstPressed(order, pressed);
      if r != 0 {
        var k :| 0 <= k < |order[1..]| && order[1..][k].key in pressed && order[1..][k].value == r &&
                 forall j :: 0 <= j < k ==> order[1..][j].key !in pressed;
        assert order[k + 1] == order[1..][k];
        assert forall j :: 1 <= j < k + 1 ==> order[j] == order[1..][j - 1];
      }
    }
  }

  // ---------------------------------------------------------------------
  // Properties of a two-slot axis (src/includes/INPUT.h:21-36).

  /** An axis only ever reports -1, 0 or +1. */
  lemma AxisValueRange(pos: seq<int>, neg: seq<int>, pressed: set<int>)
    requires |pos| == |neg|
    ensures AxisValue(pos, neg, pressed) in {-1, 0, 1}
  {
    var order := ScanOrder(pos, neg);
    FirstPressedIsFirstDown(order, pressed);
    if AxisValue(pos, neg, pressed) != 0 {
      var k :| 0 <= k < |order| && order[k].value == AxisValue(pos, neg, pressed);
      var slot := k / 2;
      if k == 2 * slot {
        assert order[2 * slot] == Binding(pos[slot], 1);
      } else {
        assert order[2 * slot + 1] == Binding(neg[slot], -1);
      }
    }
  }

  /** With none of the axis's keys down the axis reads 0. */
  lemma AxisIdle(pos: seq<int>, neg: seq<int>, pressed: set<int>)
    requires |pos| == |neg| == 2
    requires pos[0] !in pressed && neg[0] !in pressed && pos[1] !in pressed && neg[1] !in pressed
    ensures AxisValue(pos, neg, pressed) == 0
  {
    var order := ScanOrder(pos, neg);
    assert order == [order[2 * 0], order[2 * 0 + 1], order[2 * 1], order[2 * 1 + 1]];
    NoneDownIsZero(order, pressed);
  }

  /** The first positive key wins whatever else is down. */
  lemma AxisFirstPositive(pos: seq<int>, neg: seq<int>, pressed: set<int>)
    requires |pos| == |neg| == 2
    requires pos[0] in pressed
    ensures AxisValue(pos, neg, pressed) == 1
  {
    var order := ScanOrder(pos, neg);
    assert order[2 * 0] == Binding(pos[0], 1);
    FirstDownDecides(order, pressed, 0);
  }

  /** Without the first positive key, the first negative key wins whatever
      the second slot holds. */
  lemma AxisFirstNegative(pos: seq<int>, neg: seq<int>, pressed: set<int>)
    requires |pos| == |neg| == 2
    requires pos[0] !in pressed && neg[0] in pressed
    ensures AxisValue(pos, neg, pressed) == -1
  {
    var order := ScanOrder(pos, neg);
    assert order[2 * 0] == Binding(pos[0], 1) && order[2 * 0 + 1] == Binding(neg[0], -1);
    FirstDownDecides(order, pressed, 1);
  }

  /** With neither first-slot key down, the second slot decides, its positive
      key first. */
  lemma AxisSecondSlot(pos: seq<int>, neg: seq<int>, pressed: set<int>)
    requires |pos| == |neg| == 2
    requires pos[0] !in pressed && neg[0] !in pressed
    ensures AxisValue(pos, neg, pressed) ==
      if pos[1] in pressed then 1 else if neg[1] in pressed then -1 else 0
  {
    var order := ScanOrder(pos, neg);
    assert order == [order[2 * 0], order[2 * 0 + 1], order[2 * 1], order[2 * 1 + 1]];
    if pos[1] in pressed {
      FirstDownDecides(order, pressed, 2);
    } else if neg[1] in pressed {
      FirstDownDecides(order, pressed, 3);
    } else {
      NoneDownIsZero(order, pressed);
    }
  }

  /** The whole resolution table of a two-slot axis: the first key down in the
      order pos[0], neg[0], pos[1], neg[1] decides. */
  lemma AxisResolution(pos: seq<int>, neg: seq<int>, pressed: set<int>)
    requires |pos| == |neg| == 2
    ensures AxisValue(pos, neg, pressed) ==
      if pos[0] in pressed then 1
      else if neg[0] in pressed then -1
      else if pos[1] in pressed then 1
      else if neg[1] in pressed then -1
      else 0
  {
    if pos[0] in pressed {
      AxisFirstPositive(pos, neg, pressed);
    } else if neg[0] in pressed {
      AxisFirstNegative(pos, neg, pressed);
    } else {
      AxisSecondSlot(pos, neg, pressed);
    }
  }

  /** A negative key does not override an earlier positive one: holding the
      first positive and the first negative key reads +1, while holding the
      second positive and the first negative key reads -1. */
  lemma NegativeDoesNotOverride(pos: seq<int>, neg: seq<int>)
    requires |pos| == |neg| == 2
    ensures AxisValue(pos, neg, {pos[0], neg[0]}) == 1
    ensures pos[0] != neg[0] && pos[0] != pos[1] ==> AxisValue(pos, neg, {pos[1], neg[0]}) == -1
  {
    AxisFirstPositive(pos, neg, {pos[0], neg[0]});
    if pos[0] != neg[0] && pos[0] != pos[1] {
      AxisFirstNegative(pos, neg, {pos[1], neg[0]});
    }
  }

  // ---------------------------------------------------------------------
  // The two axes the program configures (src/includes/INPUT.h:39-47).

  const ForwardPositiveKeys: seq<int> := [KEY_W, KEY_UP]
  const ForwardNegativeKeys: seq<int> := [KEY_S, KEY_DOWN]
  const HorizontalPositiveKeys: seq<int> := [KEY_A, KEY_LEFT]
  const HorizontalNegativeKeys: seq<int> := [KEY_D, KEY_RIGHT]

  /** What FORWARD_AXIS reports: W, then S, then UP, then DOWN decides. */
  lemma ForwardAxisTable(pressed: set<int>)
    ensures AxisValue(ForwardPositiveKeys, ForwardNegativeKeys, pressed) ==
      if KEY_W in pressed then 1
      else if KEY_S in pressed then -1
      else if KEY_UP in pressed then 1
      else if KEY_DOWN in pressed then -1
      else 0
  {
    AxisResolution(ForwardPositiveKeys, ForwardNegativeKeys, pressed);
  }

  /** What HORIZONTAL_AXIS reports: A, then D, then LEFT, then RIGHT decides. */
  lemma HorizontalAxisTable(pressed: set<int>)
    ensures AxisValue(HorizontalPositiveKeys, HorizontalNegativeKeys, pressed) ==
      if KEY_A in pressed then 1
      else if KEY_D in pressed then -1
      else if KEY_LEFT in pressed then 1
      else if KEY_RIGHT in pressed then -1
      else 0
  {
    AxisResolution(HorizontalPositiveKeys, HorizontalNegativeKeys, pressed);
  }

  // ---------------------------------------------------------------------
  // The INPUT class.

  class Axis {
    var name: string
    var positiveKeys: array<int>
    var negativeKeys: array<int>

    /** Both key arrays hold exactly two slots and are distinct arrays. */
    ghost predicate Valid()
      reads this
    {
      positiveKeys.Length == 2 && negativeKeys.Length == 2 && positiveKeys != negativeKeys
    }

    /** Copies the first two codes of each argument array into the axis's own
        arrays, in order (src/includes/INPUT.h:14-20). */
    constructor (name: string, positiveKeys: array<int>, negativeKeys: array<int>)
      requires positiveKeys.Length >= 2 && negativeKeys.Length >= 2
      ensures Valid() && fresh(this.positiveKeys) && fresh(this.negativeKeys)
      ensures this.name == name
      ensures this.positiveKeys[..] == positiveKeys[..2]
      ensures this.negativeKeys[..] == negativeKeys[..2]
    {
      var pos := new int[2];
      var neg := new int[2];
      for i := 0 to 2
        invariant forall j :: 0 <= j < i ==> pos[j] == positiveKeys[j]
        invariant forall j :: 0 <= j < i ==> neg[j] == negativeKeys[j]
      {
        pos[i] := positiveKeys[i];
        neg[i] := negativeKeys[i];
      }
      this.name := name;
      this.positiveKeys := pos;
      this.negativeKeys := neg;
    }

    /** The scan of src/includes/INPUT.h:21-36: slot by slot, positive key
        first, stopping at the first key that is down. It changes nothing. */
    method GetValue(pressed: set<int>) returns (resValue: int)
      requires Valid()
      ensures resValue == AxisValue(positiveKeys[..], negativeKeys[..], pressed)
    {
      resValue := 0;
      var i := 0;
      while i < 2
        invariant 0 <= i <= 2 && resValue == 0
        invariant AxisValue(positiveKeys[..], negativeKeys[..], pressed) ==
                  AxisValue(positiveKeys[i..], negativeKeys[i..], pressed)
      {
        assert positiveKeys[i..][1..] == positiveKeys[i + 1..];
        assert negativeKeys[i..][1..] == negativeKeys[i + 1..];
        AxisValueStep(positiveKeys[i..], negativeKeys[i..], pressed);
        if positiveKeys[i] in pressed {
          resValue := 1;
          break;
        }
        if negativeKeys[i] in pressed {
          resValue := -1;
          break;
        }
        i := i + 1;
      }
    }
  }

  /** A fresh array holding the codes of `keys`. */
  method KeyArray(keys: seq<int>) returns (a: array<int>)
    ensures fresh(a) && a[..] == keys
  {
    a := new int[|keys|](i requires 0 <= i < |keys| => keys[i]);
  }

  /** HORIZONTAL_AXIS as src/includes/INPUT.h:46 constructs it. */
  method NewHorizontalAxis() returns (axis: Axis)
    ensures fresh(axis) && axis.Valid() && axis.name == "Horizontal"
    ensures axis.positiveKeys[..] == HorizontalPositiveKeys
    ensures axis.negativeKeys[..] == HorizontalNegativeKeys
  {
    var pos := KeyArray(HorizontalPositiveKeys);
    var neg := KeyArray(HorizontalNegativeKeys);
    axis := new Axis("Horizontal", pos, neg);
  }

  /** FORWARD_AXIS as src/includes/INPUT.h:47 constructs it. */
  method NewForwardAxis() returns (axis: Axis)
    ensures fresh(axis) && axis.Valid() && axis.name == "Forward"
    ensures axis.positiveKeys[..] == ForwardPositiveKeys
    ensures axis.negativeKeys[..] == ForwardNegativeKeys
  {
    var pos := KeyArray(ForwardPositiveKeys);
    var neg := KeyArray(ForwardNegativeKeys);
    axis := new Axis("Forward", pos, neg);
  }
}
