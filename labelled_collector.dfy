/** The collector that also keeps the label map: a sequence collector whose
    every save registers the label under the next free-looking index
    (`len(label_map)`) unless some index already names it, and writes the
    map back to `label_map.npy`. */
module LabelledCollector {
  import opened Wrappers
  import opened Landmarks
  import opened Text
  import SC = SequenceCollector

  /** One `index: name` item of the label map. */
  datatype Entry = Entry(index: int, name: string)

  /** The label map as a Python dictionary holds it: items in insertion
      order. A dictionary has no index twice; `UniqueIndices` states that,
      and `Assign` keeps it. */
  type LabelMap = seq<Entry>

  predicate UniqueIndices(labels: LabelMap) {
    forall i, j :: 0 <= i < |labels| && 0 <= j < |labels| && labels[i].index == labels[j].index ==> i == j
  }

  /** What reading `label_map.npy` gave: a map, or an error. */
  datatype MapFile = Loaded(labels: LabelMap) | Unreadable

  /** A missing or unreadable file starts an empty map. */
  function LoadLabelMap(file: Option<MapFile>): (m: LabelMap)
    ensures file.Some? && file.value.Loaded? ==> m == file.value.labels
    ensures file.None? || file.value.Unreadable? ==> m == []
  {
    if file.Some? && file.value.Loaded? then file.value.labels else []
  }

  predicate HasName(labels: LabelMap, name: string) {
    exists i :: 0 <= i < |labels| && labels[i].name == name
  }

  predicate HasIndex(labels: LabelMap, index: int) {
    exists i :: 0 <= i < |labels| && labels[i].index == index
  }

  /** `label_map[index] = name`: an existing item keeps its place and takes
      the new name, otherwise the item is added at the end. (A dictionary
      has no index twice, so at most one item is renamed.) */
  function Assign(labels: LabelMap, index: int, name: string): (r: LabelMap)
    ensures |r| == if HasIndex(labels, index) then |labels| else |labels| + 1
    ensures forall i :: 0 <= i < |labels| ==>
              r[i] == if labels[i].index == index then Entry(index, name) else labels[i]
    ensures !HasIndex(labels, index) ==> r[|labels|] == Entry(index, name)
    ensures HasIndex(r, index)
  {
    if HasIndex(labels, index) then
      seq(|labels|, i requires 0 <= i < |labels| => if labels[i].index == index then Entry(index, name) else labels[i])
    else labels + [Entry(index, name)]
  }

  /** Assigning keeps every index once: a dictionary never holds a key twice. */
  lemma AssignKeepsUnique(labels: LabelMap, index: int, name: string)
    requires UniqueIndices(labels)
    ensures UniqueIndices(Assign(labels, index, name))
  {
    var r := Assign(labels, index, name);
    if !HasIndex(labels, index) {
      assert forall k :: 0 <= k < |labels| ==> r[k] == labels[k] && labels[k].index != index;
    }
  }

  /** The label map after a save under `signLabel`: unchanged when some item
      already names it, else `label_map[len(label_map)] = signLabel`. */
  function AddLabel(labels: LabelMap, signLabel: string): LabelMap {
    if HasName(labels, signLabel) then labels else Assign(labels, |labels|, signLabel)
  }

  /** Indices 0..n-1 in order, no name twice: the shape a map built by the
      collector from empty has. */
  predicate Indexed(labels: LabelMap) {
    && (forall i :: 0 <= i < |labels| ==> labels[i].index == i)
    && (forall i, j :: 0 <= i < |labels| && 0 <= j < |labels| && labels[i].name == labels[j].name ==> i == j)
  }

  /** An indexed map stays indexed: a new label goes to the end under the
      next index and nothing earlier changes. */
  lemma AddLabelKeepsIndexed(labels: LabelMap, signLabel: string)
    requires Indexed(labels)
    ensures Indexed(AddLabel(labels, signLabel))
    ensures HasName(labels, signLabel) ==> AddLabel(labels, signLabel) == labels
    ensures !HasName(labels, signLabel) ==> AddLabel(labels, signLabel) == labels + [Entry(|labels|, signLabel)]
  {
    if !HasName(labels, signLabel) {
      var r := labels + [Entry(|labels|, signLabel)];
      assert !HasIndex(labels, |labels|);
      assert forall i :: 0 <= i < |labels| ==> labels[i].name != signLabel;
      forall i, j | 0 <= i < |r| && 0 <= j < |r| && r[i].name == r[j].name
        ensures i == j
      {
        if i < |labels| {
          assert r[i] == labels[i];
        }
        if j < |labels| {
          assert r[j] == labels[j];
        }
      }
    }
  }

  /** After a save the label is in the map, whatever the map looked like. */
  lemma AddLabelRegisters(labels: LabelMap, signLabel: string)
    ensures HasName(AddLabel(labels, signLabel), signLabel)
  {
    if !HasName(labels, signLabel) {
      var r := AddLabel(labels, signLabel);
      if HasIndex(labels, |labels|) {
        var i :| 0 <= i < |labels| && labels[i].index == |labels|;
        assert r[i].name == signLabel;
      } else {
        assert r[|labels|].name == signLabel;
      }
    }
  }

  /** On a loaded map whose indices are not 0..n-1 the next index can already
      be taken, and the earlier label is lost: {1: "A"} plus "B" becomes {1: "B"}. */
  lemma AddLabelCanOverwrite()
    ensures AddLabel([Entry(1, "A")], "B") == [Entry(1, "B")]
  {
    var labels := [Entry(1, "A")];
    assert !HasName(labels, "B");
    assert labels[0].index == |labels|;
    var r := Assign(labels, 1, "B");
    assert |r| == 1 && r[0] == Entry(1, "B");
  }

  /** The `label_exists` scan over the map's items. */
  method LabelExists(labels: LabelMap, signLabel: string) returns (labelExists: bool)
    ensures labelExists <==> HasName(labels, signLabel)
  {
    labelExists := false;
    var i := 0;
    while i < |labels|
      invariant 0 <= i <= |labels|
      invariant forall j :: 0 <= j < i ==> labels[j].name != signLabel
    {
      if labels[i].name == signLabel {
        labelExists := true;
        return;
      }
      i := i + 1;
    }
  }

  class LabelledCollector {
    const sequences: SC.SequenceCollector
    var labelMap: LabelMap
    /** The contents of `label_map.npy`: what was last saved there. */
    var mapFile: Option<MapFile>

    constructor (existing: map<string, seq<SC.CsvRow>>, file: Option<MapFile>)
      ensures fresh(sequences) && sequences.State() == SC.Snapshot(false, [], existing)
      ensures labelMap == LoadLabelMap(file) && mapFile == file
    {
      sequences := new SC.SequenceCollector(existing);
      labelMap := LoadLabelMap(file);
      mapFile := file;
    }

    /** One pass of the capture loop; after a save the label is registered
        and, if it was new, the map file rewritten. */
    method Step(hands: seq<seq<Point3>>, key: char, typedLabel: string) returns (outcome: SC.Outcome)
      modifies this, sequences
      ensures (sequences.State(), outcome) == SC.Next(old(sequences.State()), hands, key, typedLabel)
      ensures outcome.Saved? ==> labelMap == AddLabel(old(labelMap), Strip(typedLabel))
      ensures outcome.Saved? && !HasName(old(labelMap), Strip(typedLabel)) ==> mapFile == Some(Loaded(labelMap))
      ensures !outcome.Saved? || HasName(old(labelMap), Strip(typedLabel)) ==> mapFile == old(mapFile)
      ensures !outcome.Saved? ==> labelMap == old(labelMap)
    {
      outcome := sequences.Step(hands, key, typedLabel);
      if outcome.Saved? {
        var signLabel := Strip(typedLabel);
        var labelExists := LabelExists(labelMap, signLabel);
        if !labelExists {
          var newIdx := |labelMap|;
          labelMap := Assign(labelMap, newIdx, signLabel);
          mapFile := Some(Loaded(labelMap));
        }
      }
    }

    /** After the loop: the map is saved once more only if it is not empty. */
    method Finish()
      modifies this`mapFile
      ensures |labelMap| > 0 ==> mapFile == Some(Loaded(labelMap))
      ensures |labelMap| == 0 ==> mapFile == old(mapFile)
    {
      if |labelMap| > 0 {
        mapFile := Some(Loaded(labelMap));
      }
    }
  }
}
