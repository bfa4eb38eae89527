/** The compare-and-store step every decoder repeats: "if axis[k] differs
    from the new value, store it and mark some bits of axis_changed_mask_".
    A decoder is described by the list of such updates it performs, in order;
    `ApplyAll` folds the list over the axis values and the changed mask. */
module AxisUpdates {
  import opened JoystickTypes

  /** Compare axis `index` with `value`; when they differ store it and add `bits` to the changed mask. */
  datatype AxisUpdate = AxisUpdate(index: nat, value: int, bits: Mask)

  /** The axis values and `axis_changed_mask_` a decoder works on. */
  datatype AxisState = AxisState(values: seq<int>, changed: Mask)

  predicate InRange(us: seq<AxisUpdate>, n: nat)
  {
    forall i :: 0 <= i < |us| ==> us[i].index < n
  }

  /** No axis is updated twice by one report. */
  predicate DistinctIndices(us: seq<AxisUpdate>)
  {
    forall i, j :: 0 <= i < j < |us| ==> us[i].index != us[j].index
  }

  /** Each update marks its own axis (`axis_changed_mask_ |= 1 << k` for `axis[k]`). */
  predicate SelfMarked(us: seq<AxisUpdate>)
  {
    forall i :: 0 <= i < |us| ==> us[i].bits == {us[i].index}
  }

  /** Axis k is not touched by any update of the list. */
  predicate NotUpdated(us: seq<AxisUpdate>, k: nat)
  {
    forall i :: 0 <= i < |us| ==> us[i].index != k
  }

  /** One compare-and-store. */
  function Apply1(s: AxisState, u: AxisUpdate): (r: AxisState)
    requires u.index < |s.values|
    ensures |r.values| == |s.values|
    ensures r.values[u.index] == u.value
    ensures forall k :: 0 <= k < |s.values| && k != u.index ==> r.values[k] == s.values[k]
    ensures s.values[u.index] != u.value ==> r.changed == s.changed + u.bits
    ensures s.values[u.index] == u.value ==> r == s
  {
    if s.values[u.index] != u.value then AxisState(s.values[u.index := u.value], s.changed + u.bits) else s
  }

  /** The updates performed in order. */
  function ApplyAll(s: AxisState, us: seq<AxisUpdate>): (r: AxisState)
    requires InRange(us, |s.values|)
    ensures |r.values| == |s.values|
    decreases |us|
  {
    if us == [] then s else Apply1(ApplyAll(s, us[..|us| - 1]), us[|us| - 1])
  }

  /** The bits marked by the updates whose value differs from `values`. */
  function ChangedBits(values: seq<int>, us: seq<AxisUpdate>): Mask
    requires InRange(us, |values|)
    decreases |us|
  {
    if us == [] then {}
    else
      var u := us[|us| - 1];
      ChangedBits(values, us[..|us| - 1]) + (if values[u.index] != u.value then u.bits else {})
  }

  /** Taking one more update of a list extends the fold by one step. */
  lemma ApplyAllStep(s: AxisState, us: seq<AxisUpdate>, i: nat)
    requires InRange(us, |s.values|) && i < |us|
    ensures ApplyAll(s, us[..i + 1]) == Apply1(ApplyAll(s, us[..i]), us[i])
  {
    assert us[..i + 1][..i] == us[..i];
  }

  /** With distinct axes every update's value lands, untouched axes keep
      theirs, and the mask gains exactly the bits of the updates whose value
      differed from the starting one. */
  lemma {:induction false} ApplyAllEffect(s: AxisState, us: seq<AxisUpdate>)
    requires InRange(us, |s.values|) && DistinctIndices(us)
    ensures forall i :: 0 <= i < |us| ==> ApplyAll(s, us).values[us[i].index] == us[i].value
    ensures forall k :: 0 <= k < |s.values| && NotUpdated(us, k) ==> ApplyAll(s, us).values[k] == s.values[k]
    ensures ApplyAll(s, us).changed == s.changed + ChangedBits(s.values, us)
    decreases |us|
  {
    if us != [] {
      var p := us[..|us| - 1];
      var u := us[|us| - 1];
      assert forall i :: 0 <= i < |p| ==> p[i] == us[i];
      ApplyAllEffect(s, p);
      var mid := ApplyAll(s, p);
      assert NotUpdated(p, u.index);
      assert mid.values[u.index] == s.values[u.index];
      forall k | 0 <= k < |s.values| && NotUpdated(us, k)
        ensures ApplyAll(s, us).values[k] == s.values[k]
      {
        assert NotUpdated(p, k);
        assert us[|us| - 1].index != k;
      }
    }
  }

  /** An update list whose values are all in place changes nothing. */
  lemma {:induction false} ApplyAllNoop(s: AxisState, us: seq<AxisUpdate>)
    requires InRange(us, |s.values|)
    requires forall i :: 0 <= i < |us| ==> s.values[us[i].index] == us[i].value
    ensures ApplyAll(s, us) == s
    ensures ChangedBits(s.values, us) == {}
    decreases |us|
  {
    if us != [] {
      var p := us[..|us| - 1];
      assert forall i :: 0 <= i < |p| ==> p[i] == us[i];
      ApplyAllNoop(s, p);
    }
  }

  /** Decoding the same report twice: the second pass stores nothing and marks nothing. */
  lemma ReplayQuiet(s: AxisState, us: seq<AxisUpdate>, m: Mask)
    requires InRange(us, |s.values|) && DistinctIndices(us)
    ensures |ApplyAll(s, us).values| == |s.values|
    ensures ApplyAll(AxisState(ApplyAll(s, us).values, m), us) == AxisState(ApplyAll(s, us).values, m)
  {
    ApplyAllEffect(s, us);
    ApplyAllNoop(AxisState(ApplyAll(s, us).values, m), us);
  }

  /** A bit is marked exactly when some update carrying it found a value
      different from the stored one. */
  lemma {:induction false} ChangedBitsMembership(values: seq<int>, us: seq<AxisUpdate>)
    requires InRange(us, |values|)
    ensures forall k :: k in ChangedBits(values, us) <==>
      exists i :: 0 <= i < |us| && k in us[i].bits && values[us[i].index] != us[i].value
    decreases |us|
  {
    if us != [] {
      var p := us[..|us| - 1];
      assert forall i :: 0 <= i < |p| ==> p[i] == us[i];
      ChangedBitsMembership(values, p);
      forall k | k in ChangedBits(values, us)
        ensures exists i :: 0 <= i < |us| && k in us[i].bits && values[us[i].index] != us[i].value
      {
        if k !in ChangedBits(values, p) {
          assert k in us[|us| - 1].bits;
        }
      }
    }
  }

  /** For self-marked updates, bit k is marked exactly when an update of
      axis k carried a value different from the stored one. */
  lemma ChangedBitsExact(values: seq<int>, us: seq<AxisUpdate>)
    requires InRange(us, |values|) && SelfMarked(us)
    ensures forall k :: k in ChangedBits(values, us) <==>
      exists i :: 0 <= i < |us| && us[i].index == k && values[k] != us[i].value
  {
    ChangedBitsMembership(values, us);
  }

  /** The decoder property: after self-marked updates of distinct axes,
      bit k is marked exactly when it was marked before or axis k's value changed. */
  lemma ChangedIffDiffers(s: AxisState, us: seq<AxisUpdate>)
    requires InRange(us, |s.values|) && DistinctIndices(us) && SelfMarked(us)
    ensures forall k :: k in ApplyAll(s, us).changed <==>
      k in s.changed || (0 <= k < |s.values| && ApplyAll(s, us).values[k] != s.values[k])
  {
    ApplyAllEffect(s, us);
    ChangedBitsExact(s.values, us);
    var r := ApplyAll(s, us);
    forall k
      ensures k in r.changed <==> k in s.changed || (0 <= k < |s.values| && r.values[k] != s.values[k])
    {
      if k in s.changed || !(0 <= k < |s.values|) || NotUpdated(us, k) {
      } else {
        var i :| 0 <= i < |us| && us[i].index == k;
        assert r.values[k] == us[i].value;
        if k in ChangedBits(s.values, us) {
          var j :| 0 <= j < |us| && us[j].index == k && s.values[k] != us[j].value;
          assert i == j;
        }
      }
    }
  }

  /** Whether some compare of the fold finds a different value and stores it
      (the decoders that set `anychange` inside their loops). */
  predicate Stores(s: AxisState, us: seq<AxisUpdate>)
    requires InRange(us, |s.values|)
    decreases |us|
  {
    us != [] &&
    (Stores(s, us[..|us| - 1]) || ApplyAll(s, us[..|us| - 1]).values[us[|us| - 1].index] != us[|us| - 1].value)
  }

  /** Taking one more update of a list extends `Stores` by one compare. */
  lemma StoresStep(s: AxisState, us: seq<AxisUpdate>, i: nat)
    requires InRange(us, |s.values|) && i < |us|
    ensures Stores(s, us[..i + 1]) <==> Stores(s, us[..i]) || ApplyAll(s, us[..i]).values[us[i].index] != us[i].value
  {
    assert us[..i + 1][..i] == us[..i];
  }

  /** Starting from an empty changed mask, with every update marking some
      bit, a store happened exactly when the mask ends non-empty. */
  lemma {:induction false} StoresIffMarked(s: AxisState, us: seq<AxisUpdate>)
    requires InRange(us, |s.values|) && s.changed == {}
    requires forall i :: 0 <= i < |us| ==> us[i].bits != {}
    ensures Stores(s, us) <==> ApplyAll(s, us).changed != {}
    decreases |us|
  {
    if us != [] {
      var p := us[..|us| - 1];
      assert forall i :: 0 <= i < |p| ==> p[i] == us[i];
      StoresIffMarked(s, p);
      var mid := ApplyAll(s, p);
      var u := us[|us| - 1];
      if mid.values[u.index] != u.value {
        assert ApplyAll(s, us).changed == mid.changed + u.bits;
      }
    }
  }
}
