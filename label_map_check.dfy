/** The label-map checker: a map is usable for classification when every key
    is an integer (Python's `bool` counts, being a subclass of `int`) and no
    value is a floating-point number. Values are modelled by their Python
    type. */
module LabelMapCheck {
  /** A Python value, as far as the check looks at it. */
  datatype PyValue =
    | PyInt(i: int)
    | PyBool(b: bool)
    | NpInteger(n: int)
    | PyFloat(f: real)
    | NpFloating(g: real)
    | PyStr(s: string)
    | PyNone

  /** `isinstance(key, (int, np.integer))`. */
  predicate IsInteger(v: PyValue) {
    v.PyInt? || v.PyBool? || v.NpInteger?
  }

  /** `isinstance(value, (float, np.floating))`. */
  predicate IsFloating(v: PyValue) {
    v.PyFloat? || v.NpFloating?
  }

  /** The dictionary's items in iteration order. */
  datatype Item = Item(key: PyValue, value: PyValue)

  predicate ItemOk(item: Item) {
    IsInteger(item.key) && !IsFloating(item.value)
  }

  /** The verdict over a prefix of the items, as the loop accumulates it. */
  function AllOk(items: seq<Item>): bool
    decreases |items|
  {
    if items == [] then true else AllOk(items[..|items| - 1]) && ItemOk(items[|items| - 1])
  }

  /** The verdict is exactly "every item is fine". */
  lemma {:induction false} AllOkMeansEveryItem(items: seq<Item>)
    ensures AllOk(items) <==> forall i :: 0 <= i < |items| ==> ItemOk(items[i])
    decreases |items|
  {
    if items != [] {
      var init := items[..|items| - 1];
      AllOkMeansEveryItem(init);
      assert forall i :: 0 <= i < |init| ==> init[i] == items[i];
    }
  }

  /** One bad item anywhere makes the whole map invalid. */
  lemma OneBadItemSpoils(items: seq<Item>, k: nat)
    requires k < |items| && !ItemOk(items[k])
    ensures !AllOk(items)
  {
    AllOkMeansEveryItem(items);
  }

  /** Validity of a concatenation is the validity of both parts. */
  lemma AllOkAppend(a: seq<Item>, b: seq<Item>)
    ensures AllOk(a + b) == (AllOk(a) && AllOk(b))
  {
    AllOkMeansEveryItem(a);
    AllOkMeansEveryItem(b);
    AllOkMeansEveryItem(a + b);
    if AllOk(a) && AllOk(b) {
      forall i | 0 <= i < |a + b|
        ensures ItemOk((a + b)[i])
      {
        if i < |a| { assert (a + b)[i] == a[i]; } else { assert (a + b)[i] == b[i - |a|]; }
      }
    }
    if AllOk(a + b) {
      forall i | 0 <= i < |a|
        ensures ItemOk(a[i])
      {
        assert (a + b)[i] == a[i];
      }
      forall i | 0 <= i < |b|
        ensures ItemOk(b[i])
      {
        assert (a + b)[|a| + i] == b[i];
      }
    }
  }

  /** The `valid_map` loop: the flag starts true and can only be cleared. */
  method ValidMap(items: seq<Item>) returns (validMap: bool)
    ensures validMap == AllOk(items)
    ensures validMap <==> forall i :: 0 <= i < |items| ==> ItemOk(items[i])
  {
    validMap := true;
    var i := 0;
    while i < |items|
      invariant 0 <= i <= |items|
      invariant validMap == AllOk(items[..i])
    {
      if !IsInteger(items[i].key) || IsFloating(items[i].value) {
        validMap := false;
      }
      assert items[..i + 1][..i] == items[..i];
      i := i + 1;
    }
    assert items[..i] == items;
    AllOkMeansEveryItem(items);
  }

  /** What `label_map.npy` holds: absent, unloadable, or a dictionary. */
  datatype MapFile = Missing | Corrupt | Dict(items: seq<Item>)

  datatype Report = FileMissing | LoadFailed | Checked(valid: bool)

  /** The script: a missing file stops before any load, a failed load is
      reported, otherwise the map is checked. */
  method CheckLabelMap(file: MapFile) returns (report: Report)
    ensures file.Missing? <==> report == FileMissing
    ensures file.Corrupt? <==> report == LoadFailed
    ensures file.Dict? ==> report == Checked(forall i :: 0 <= i < |file.items| ==> ItemOk(file.items[i]))
  {
    match file {
      case Missing => report := FileMissing;
      case Corrupt => report := LoadFailed;
      case Dict(items) =>
        var validMap := ValidMap(items);
        report := Checked(validMap);
    }
  }
}
