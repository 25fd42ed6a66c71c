/** The sign dataset loader: the WLASL annotations (JSON) and then the
    ASL-LEX table (CSV) are read into one dictionary keyed by the upper-case
    gloss, later entries replacing earlier ones; lookups ignore case. The
    data directory is a map from file name to its parsed contents. */
module PoseDatabase {
  import opened Wrappers
  import opened Text

  /** One ASL-LEX row; `None` is a missing column. */
  datatype CsvRow = CsvRow(
    sign: Option<string>, frequency: Option<real>, iconicity: Option<real>, complexity: Option<real>,
    handshape1: Option<string>, handshape2: Option<string>, location: Option<string>, movement: Option<string>)

  /** One video instance of a WLASL entry, kept as given. */
  type Instance = map<string, string>

  /** One WLASL entry; `None` is a missing key. */
  datatype JsonEntry = JsonEntry(gloss: Option<string>, instances: Option<seq<Instance>>)

  /** A stored sign. */
  datatype SignRecord =
    | LexRecord(word: string, frequency: real, iconicity: real, complexity: real,
                handshape1: string, handshape2: string, location: string, movement: string, dataset: string)
    | WlaslRecord(word: string, instances: seq<Instance>, dataset: string)

  /** A dataset file, parsed by the reader of its format. */
  datatype DatasetFile = CsvTable(rows: seq<CsvRow>) | JsonArray(entries: seq<JsonEntry>)

  datatype Format = Csv | Json

  datatype DatasetInfo = DatasetInfo(id: string, name: string, file: string, format: Format)

  /** The declared datasets, in declaration order. */
  const Datasets: seq<DatasetInfo> := [
    DatasetInfo("wlasl", "WLASL (Word-Level ASL)", "wlasl_annotations.json", Json),
    DatasetInfo("asl_lex", "ASL-LEX", "asl_lex.csv", Csv)
  ]

  /** `pose_data`: the records and the order in which keys were first added
      (a Python dictionary keeps that order; replacing a value does not move it). */
  datatype Table = Table(data: map<string, SignRecord>, order: seq<string>)

  /** `if gloss: pose_data[gloss] = record`. */
  function Put(t: Table, gloss: string, record: SignRecord): Table {
    if gloss == "" then t
    else Table(t.data[gloss := record], if gloss in t.data then t.order else t.order + [gloss])
  }

  /** Storing a sequence of (gloss, record) pairs in order. */
  function PutAll(t: Table, pairs: seq<(string, SignRecord)>): Table
    decreases |pairs|
  {
    if pairs == [] then t else Put(PutAll(t, pairs[..|pairs| - 1]), pairs[|pairs| - 1].0, pairs[|pairs| - 1].1)
  }

  /** The last position whose gloss is `key`, or -1. */
  function LastIndexOf(pairs: seq<(string, SignRecord)>, key: string): (r: int)
    ensures -1 <= r < |pairs|
    ensures r >= 0 ==> pairs[r].0 == key
    ensures forall j :: r < j < |pairs| ==> pairs[j].0 != key
    decreases |pairs|
  {
    if pairs == [] then -1
    else if pairs[|pairs| - 1].0 == key then |pairs| - 1
    else LastIndexOf(pairs[..|pairs| - 1], key)
  }

  /** The last non-empty gloss wins; a key no pair names keeps its record. */
  lemma {:induction false} LastWriterWins(t: Table, pairs: seq<(string, SignRecord)>, key: string)
    requires key != ""
    ensures var i := LastIndexOf(pairs, key);
            && (key in PutAll(t, pairs).data <==> i >= 0 || key in t.data)
            && (i >= 0 ==> PutAll(t, pairs).data[key] == pairs[i].1)
            && (i < 0 && key in t.data ==> PutAll(t, pairs).data[key] == t.data[key])
    decreases |pairs|
  {
    if pairs != [] {
      LastWriterWins(t, pairs[..|pairs| - 1], key);
    }
  }

  /** Only non-empty glosses become keys. */
  lemma {:induction false} NoEmptyKey(t: Table, pairs: seq<(string, SignRecord)>)
    requires "" !in t.data
    ensures "" !in PutAll(t, pairs).data
    decreases |pairs|
  {
    if pairs != [] {
      NoEmptyKey(t, pairs[..|pairs| - 1]);
    }
  }

  /** The key order lists every stored key exactly once. */
  ghost predicate OrderMatches(t: Table) {
    && (forall k :: k in t.data <==> k in t.order)
    && (forall i, j :: 0 <= i < j < |t.order| ==> t.order[i] != t.order[j])
  }

  /** Every record is stored under its own word. */
  ghost predicate WellKeyed(t: Table) {
    forall k :: k in t.data ==> t.data[k].word == k
  }

  /** Every key is already in upper case. */
  ghost predicate UpperKeys(t: Table) {
    forall k :: k in t.data ==> Upper(k) == k
  }

  lemma {:induction false} PutAllKeepsShape(t: Table, pairs: seq<(string, SignRecord)>)
    requires OrderMatches(t) && WellKeyed(t) && UpperKeys(t)
    requires forall i :: 0 <= i < |pairs| ==> pairs[i].1.word == pairs[i].0 && Upper(pairs[i].0) == pairs[i].0
    ensures OrderMatches(PutAll(t, pairs)) && WellKeyed(PutAll(t, pairs)) && UpperKeys(PutAll(t, pairs))
    ensures t.order <= PutAll(t, pairs).order
    decreases |pairs|
  {
    if pairs != [] {
      PutAllKeepsShape(t, pairs[..|pairs| - 1]);
    }
  }

  lemma UpperAll<T>(xs: seq<T>, text: T -> string)
    ensures forall i :: 0 <= i < |xs| ==> Upper(Upper(text(xs[i]))) == Upper(text(xs[i]))
  {
    forall i | 0 <= i < |xs| {
      UpperIdempotent(text(xs[i]));
    }
  }

  /** `gloss = row.get("Sign", "").upper()`. */
  function CsvGloss(row: CsvRow): string {
    Upper(row.sign.GetOr(""))
  }

  /** The record an ASL-LEX row becomes, with the script's defaults. */
  function CsvRecord(row: CsvRow, datasetId: string): SignRecord {
    LexRecord(CsvGloss(row), row.frequency.GetOr(0.0), row.iconicity.GetOr(0.0), row.complexity.GetOr(0.0),
              row.handshape1.GetOr(""), row.handshape2.GetOr(""), row.location.GetOr(""),
              row.movement.GetOr(""), datasetId)
  }

  function CsvPairs(rows: seq<CsvRow>, datasetId: string): (r: seq<(string, SignRecord)>)
    ensures |r| == |rows|
    ensures forall i :: 0 <= i < |rows| ==> r[i].1.word == r[i].0 && r[i].1.dataset == datasetId
    ensures forall i :: 0 <= i < |rows| ==> Upper(r[i].0) == r[i].0
  {
    UpperAll(rows, (row: CsvRow) => row.sign.GetOr(""));
    seq(|rows|, i requires 0 <= i < |rows| => (CsvGloss(rows[i]), CsvRecord(rows[i], datasetId)))
  }

  /** `gloss = entry.get("gloss", "").upper()`. */
  function JsonGloss(entry: JsonEntry): string {
    Upper(entry.gloss.GetOr(""))
  }

  function JsonRecord(entry: JsonEntry, datasetId: string): SignRecord {
    WlaslRecord(JsonGloss(entry), entry.instances.GetOr([]), datasetId)
  }

  function JsonPairs(entries: seq<JsonEntry>, datasetId: string): (r: seq<(string, SignRecord)>)
    ensures |r| == |entries|
    ensures forall i :: 0 <= i < |entries| ==> r[i].1.word == r[i].0 && r[i].1.dataset == datasetId
    ensures forall i :: 0 <= i < |entries| ==> Upper(r[i].0) == r[i].0
  {
    UpperAll(entries, (entry: JsonEntry) => entry.gloss.GetOr(""));
    seq(|entries|, i requires 0 <= i < |entries| => (JsonGloss(entries[i]), JsonRecord(entries[i], datasetId)))
  }

  /** The table after loading one dataset file. */
  function LoadFile(t: Table, info: DatasetInfo, file: DatasetFile): Table {
    match file
    case CsvTable(rows) => PutAll(t, CsvPairs(rows, info.id))
    case JsonArray(entries) => PutAll(t, JsonPairs(entries, info.id))
  }

  /** A file's parsed form matches its declared format. */
  predicate Readable(info: DatasetInfo, file: DatasetFile) {
    if info.format == Csv then file.CsvTable? else file.JsonArray?
  }

  /** The table `t` after `load_all` has gone over the first `n` declared
      datasets. */
  function LoadPrefixFrom(t: Table, files: map<string, DatasetFile>, n: nat): Table
    requires n <= |Datasets|
  {
    if n == 0 then t
    else
      var t' := LoadPrefixFrom(t, files, n - 1);
      var info := Datasets[n - 1];
      if info.file in files then LoadFile(t', info, files[info.file]) else t'
  }

  /** The same, from the empty table the constructor starts with. */
  function LoadPrefix(files: map<string, DatasetFile>, n: nat): Table
    requires n <= |Datasets|
  {
    LoadPrefixFrom(Table(map[], []), files, n)
  }

  /** `loaded_datasets` after `load_all` has gone over the first `n` declared
      datasets: each one whose file exists is set to `True`. */
  function LoadedFlags(flags: map<string, bool>, files: map<string, DatasetFile>, n: nat): map<string, bool>
    requires n <= |Datasets|
  {
    if n == 0 then flags
    else
      var f := LoadedFlags(flags, files, n - 1);
      if Datasets[n - 1].file in files then f[Datasets[n - 1].id := true] else f
  }

  /** The first `n` declared datasets whose file exists include one with id `k`. */
  predicate PresentAmong(files: map<string, DatasetFile>, n: nat, k: string)
    requires n <= |Datasets|
  {
    exists i :: 0 <= i < n && Datasets[i].id == k && Datasets[i].file in files
  }

  /** A flag is set exactly for the old keys and the present datasets; a
      present dataset is marked `True` and every other flag keeps its value. */
  lemma {:induction false} LoadedFlagsMeaning(flags: map<string, bool>, files: map<string, DatasetFile>, n: nat, k: string)
    requires n <= |Datasets|
    ensures k in LoadedFlags(flags, files, n) <==> k in flags || PresentAmong(files, n, k)
    ensures PresentAmong(files, n, k) ==> LoadedFlags(flags, files, n)[k]
    ensures k in flags && !PresentAmong(files, n, k) ==> LoadedFlags(flags, files, n)[k] == flags[k]
  {
    if n > 0 {
      LoadedFlagsMeaning(flags, files, n - 1, k);
      if PresentAmong(files, n, k) && !PresentAmong(files, n - 1, k) {
        assert Datasets[n - 1].id == k && Datasets[n - 1].file in files;
      }
      if PresentAmong(files, n - 1, k) {
        var i :| 0 <= i < n - 1 && Datasets[i].id == k && Datasets[i].file in files;
        assert 0 <= i < n && Datasets[i].id == k && Datasets[i].file in files;
      }
      if Datasets[n - 1].id == k && Datasets[n - 1].file in files {
        assert PresentAmong(files, n, k);
      }
    }
  }

  /** Both files present: an ASL-LEX sign replaces a WLASL sign of the same
      upper-case gloss; a WLASL sign absent from ASL-LEX stays. */
  lemma AslLexWins(files: map<string, DatasetFile>, key: string)
    requires key != ""
    requires "asl_lex.csv" in files && files["asl_lex.csv"].CsvTable?
    ensures var t := LoadPrefix(files, 2);
            var rows := files["asl_lex.csv"].rows;
            var i := LastIndexOf(CsvPairs(rows, "asl_lex"), key);
            && (i >= 0 ==> key in t.data && t.data[key] == CsvRecord(rows[i], "asl_lex"))
            && (i < 0 ==> (key in t.data <==> key in LoadPrefix(files, 1).data))
            && (i < 0 && key in t.data ==> t.data[key] == LoadPrefix(files, 1).data[key])
  {
    assert LoadPrefix(files, 2) == PutAll(LoadPrefix(files, 1), CsvPairs(files["asl_lex.csv"].rows, "asl_lex"));
    LastWriterWins(LoadPrefix(files, 1), CsvPairs(files["asl_lex.csv"].rows, "asl_lex"), key);
  }

  /** Well-formed tables: every record under its own word, upper-case keys
      listed once in first-seen order, and no empty key. */
  ghost predicate Shaped(t: Table) {
    OrderMatches(t) && WellKeyed(t) && UpperKeys(t) && "" !in t.data
  }

  /** Loading keeps a table well formed: every record under its own word,
      in first-seen order, and no empty key. */
  lemma {:induction false} LoadPrefixShape(t0: Table, files: map<string, DatasetFile>, n: nat)
    requires n <= |Datasets|
    requires Shaped(t0)
    ensures Shaped(LoadPrefixFrom(t0, files, n))
    ensures t0.order <= LoadPrefixFrom(t0, files, n).order
  {
    if n > 0 {
      LoadPrefixShape(t0, files, n - 1);
      var t := LoadPrefixFrom(t0, files, n - 1);
      var info := Datasets[n - 1];
      if info.file in files {
        match files[info.file]
        case CsvTable(rows) =>
          PutAllKeepsShape(t, CsvPairs(rows, info.id));
          NoEmptyKey(t, CsvPairs(rows, info.id));
        case JsonArray(entries) =>
          PutAllKeepsShape(t, JsonPairs(entries, info.id));
          NoEmptyKey(t, JsonPairs(entries, info.id));
      }
    }
  }

  /** Every present file parses in its declared format. */
  predicate AllReadable(files: map<string, DatasetFile>) {
    forall i :: 0 <= i < |Datasets| && Datasets[i].file in files ==> Readable(Datasets[i], files[Datasets[i].file])
  }

  class DatasetLoader {
    var poseData: map<string, SignRecord>
    var signOrder: seq<string>
    var loadedDatasets: map<string, bool>

    function Contents(): Table
      reads this
    {
      Table(poseData, signOrder)
    }

    ghost predicate Valid()
      reads this
    {
      Shaped(Contents())
    }

    /** `__init__` with `load_all`. */
    constructor (files: map<string, DatasetFile>)
      requires AllReadable(files)
      ensures Valid()
      ensures Contents() == LoadPrefix(files, |Datasets|)
      ensures forall k :: k in loadedDatasets <==> PresentAmong(files, |Datasets|, k)
      ensures forall k :: k in loadedDatasets ==> loadedDatasets[k]
      ensures forall i :: 0 <= i < |Datasets| ==> (Datasets[i].id in loadedDatasets <==> Datasets[i].file in files)
    {
      poseData := map[];
      signOrder := [];
      loadedDatasets := map[];
      new;
      LoadAll(files);
      forall k {
        LoadedFlagsMeaning(map[], files, |Datasets|, k);
      }
    }

    /** `load_all`: each declared dataset in turn, skipping missing files. */
    method LoadAll(files: map<string, DatasetFile>)
      requires Valid() && AllReadable(files)
      modifies this`poseData, this`signOrder, this`loadedDatasets
      ensures Valid()
      ensures Contents() == LoadPrefixFrom(old(Contents()), files, |Datasets|)
      ensures loadedDatasets == LoadedFlags(old(loadedDatasets), files, |Datasets|)
    {
      var n := 0;
      while n < |Datasets|
        invariant 0 <= n <= |Datasets|
        invariant Valid()
        invariant Contents() == LoadPrefixFrom(old(Contents()), files, n)
        invariant loadedDatasets == LoadedFlags(old(loadedDatasets), files, n)
      {
        var dataset := Datasets[n];
        if dataset.file in files {
          var file := files[dataset.file];
          if dataset.format == Csv {
            LoadCsvDataset(dataset.id, file.rows);
          } else {
            LoadJsonDataset(dataset.id, file.entries);
          }
        }
        n := n + 1;
      }
    }

    /** `load_csv_dataset`. */
    method LoadCsvDataset(datasetId: string, rows: seq<CsvRow>)
      requires Valid()
      modifies this`poseData, this`signOrder, this`loadedDatasets
      ensures Valid()
      ensures Contents() == PutAll(old(Contents()), CsvPairs(rows, datasetId))
      ensures loadedDatasets == old(loadedDatasets)[datasetId := true]
    {
      ghost var t0 := Contents();
      var i := 0;
      while i < |rows|
        invariant 0 <= i <= |rows|
        invariant Contents() == PutAll(old(Contents()), CsvPairs(rows, datasetId)[..i])
        invariant loadedDatasets == old(loadedDatasets)
      {
        var row := rows[i];
        var gloss := Upper(row.sign.GetOr(""));
        if gloss != "" {
          if gloss !in poseData {
            signOrder := signOrder + [gloss];
          }
          poseData := poseData[gloss := CsvRecord(row, datasetId)];
        }
        assert CsvPairs(rows, datasetId)[..i + 1][..i] == CsvPairs(rows, datasetId)[..i];
        i := i + 1;
      }
      assert CsvPairs(rows, datasetId)[..i] == CsvPairs(rows, datasetId);
      PutAllKeepsShape(t0, CsvPairs(rows, datasetId));
      NoEmptyKey(t0, CsvPairs(rows, datasetId));
      loadedDatasets := loadedDatasets[datasetId := true];
    }

    /** `load_json_dataset`. */
    method LoadJsonDataset(datasetId: string, entries: seq<JsonEntry>)
      requires Valid()
      modifies this`poseData, this`signOrder, this`loadedDatasets
      ensures Valid()
      ensures Contents() == PutAll(old(Contents()), JsonPairs(entries, datasetId))
      ensures loadedDatasets == old(loadedDatasets)[datasetId := true]
    {
      ghost var t0 := Contents();
      var i := 0;
      while i < |entries|
        invariant 0 <= i <= |entries|
        invariant Contents() == PutAll(old(Contents()), JsonPairs(entries, datasetId)[..i])
        invariant loadedDatasets == old(loadedDatasets)
      {
        var entry := entries[i];
        var gloss := Upper(entry.gloss.GetOr(""));
        if gloss != "" {
          if gloss !in poseData {
            signOrder := signOrder + [gloss];
          }
          poseData := poseData[gloss := WlaslRecord(gloss, entry.instances.GetOr([]), datasetId)];
        }
        assert JsonPairs(entries, datasetId)[..i + 1][..i] == JsonPairs(entries, datasetId)[..i];
        i := i + 1;
      }
      assert JsonPairs(entries, datasetId)[..i] == JsonPairs(entries, datasetId);
      PutAllKeepsShape(t0, JsonPairs(entries, datasetId));
      NoEmptyKey(t0, JsonPairs(entries, datasetId));
      loadedDatasets := loadedDatasets[datasetId := true];
    }

    /** `get_sign_data`: the record for the word in any letter case. */
    function GetSignData(word: string): (r: Option<SignRecord>)
      reads this
      ensures r.Some? <==> Upper(word) in poseData
      ensures r.Some? ==> r.value == poseData[Upper(word)]
    {
      Get(poseData, Upper(word))
    }

    /** `get_available_signs`: the stored keys in insertion order. */
    function GetAvailableSigns(): (r: seq<string>)
      reads this
      requires Valid()
      ensures forall k :: k in r <==> k in poseData
      ensures forall i, j :: 0 <= i < j < |r| ==> r[i] != r[j]
    {
      signOrder
    }
  }

  /** Lookup ignores case: a word and its upper-case form find the same record. */
  lemma GetSignDataIgnoresCase(loader: DatasetLoader, word: string)
    ensures loader.GetSignData(word) == loader.GetSignData(Upper(word))
  {
    UpperIdempotent(word);
  }

  /** Every listed sign is found by lookup, as a record of that word; and a
      word is found exactly when its upper-case form is listed. */
  lemma AvailableSignsAreLookups(loader: DatasetLoader, word: string)
    requires loader.Valid()
    ensures word in loader.GetAvailableSigns() ==>
              loader.GetSignData(word).Some? && loader.GetSignData(word).value.word == word
    ensures loader.GetSignData(word).Some? <==> Upper(word) in loader.GetAvailableSigns()
  {
  }
}
