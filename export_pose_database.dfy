/** The pose-database export: every CSV of two-column keypoints in the
    sequence directory is read, the file name gives the gloss, and per gloss
    the file with the most keypoints (at least 21) is kept; the result maps
    each upper-case gloss to one right-hand sample. The directory listing is
    a sequence of files in listing order, and number parsing (`float`) is a
    parameter. */
module ExportPoseDatabase {
  import opened Wrappers
  import opened Text
  import SC = SequenceCollector

  /** The script's `gloss_map`, entry by entry in its order: the pair
      (g, n) is the entry mapping the stem "<g>_<n>" to g. */
  const Renames: seq<(string, string)> := [
    ("0", "369"), ("1", "381"), ("2", "393"), ("3", "406"), ("4", "420"), ("5", "432"),
    ("A", "10"), ("B", "14"), ("Bye", "293"), ("C", "19"), ("D", "25"), ("Deaf", "360"),
    ("E", "30"), ("F", "35"), ("G", "69"), ("H", "77"), ("Hello", "0"), ("I", "87"),
    ("J", "97"), ("K", "108"), ("L", "118"), ("Love", "346"), ("M", "128"), ("N", "139"),
    ("No", "318"), ("O", "150"), ("P", "161"), ("Q", "173"), ("R", "184"), ("S", "196"),
    ("T", "208"), ("Thanks", "5"), ("U", "220"), ("V", "232"), ("W", "244"), ("X", "256"),
    ("Y", "270"), ("Yes", "307"), ("You", "332"), ("Z", "282")
  ]

  function StemOf(entry: (string, string)): string {
    entry.0 + "_" + entry.1
  }

  /** No listed gloss contains "_". */
  lemma NoSeparatorInRenames()
    ensures PlainGlosses(Renames)
  {
  }

  /** No gloss among `entries` contains "_". */
  predicate PlainGlosses(entries: seq<(string, string)>) {
    forall i :: 0 <= i < |entries| ==> '_' !in entries[i].0
  }

  /** With plain glosses a stem determines its gloss. */
  lemma StemsDetermineGloss(entries: seq<(string, string)>)
    requires PlainGlosses(entries)
    ensures forall i, j :: 0 <= i < |entries| && 0 <= j < |entries| && StemOf(entries[i]) == StemOf(entries[j]) ==>
              entries[i].0 == entries[j].0
  {
    forall i, j | 0 <= i < |entries| && 0 <= j < |entries| && StemOf(entries[i]) == StemOf(entries[j])
      ensures entries[i].0 == entries[j].0
    {
      BeforeFirstOfJoined(entries[i].0, '_', entries[i].1);
      BeforeFirstOfJoined(entries[j].0, '_', entries[j].1);
      assert StemOf(entries[i]) == entries[i].0 + ['_'] + entries[i].1;
      assert StemOf(entries[j]) == entries[j].0 + ['_'] + entries[j].1;
    }
  }

  /** The dictionary the entries spell out. */
  function TableOf(entries: seq<(string, string)>): map<string, string>
    requires PlainGlosses(entries)
  {
    StemsDetermineGloss(entries);
    map i | 0 <= i < |entries| :: StemOf(entries[i]) := entries[i].0
  }

  /** Such a dictionary renames every stem to its own text before the first
      "_", which is what the fallback gives anyway. */
  lemma TableIsPrefix(entries: seq<(string, string)>)
    requires PlainGlosses(entries)
    ensures forall k :: k in TableOf(entries) ==> TableOf(entries)[k] == BeforeFirst(k, '_')
  {
    StemsDetermineGloss(entries);
    forall k | k in TableOf(entries)
      ensures TableOf(entries)[k] == BeforeFirst(k, '_')
    {
      var i :| 0 <= i < |entries| && StemOf(entries[i]) == k;
      BeforeFirstOfJoined(entries[i].0, '_', entries[i].1);
      assert k == entries[i].0 + ['_'] + entries[i].1;
    }
  }

  /** `gloss_map`: the file stems the script renames. */
  const GlossMap: map<string, string> := (NoSeparatorInRenames(); TableOf(Renames))

  /** Every stem the table renames is renamed to its own text before the
      first "_". */
  lemma GlossMapIsPrefix()
    ensures forall k :: k in GlossMap ==> GlossMap[k] == BeforeFirst(k, '_')
  {
    NoSeparatorInRenames();
    TableIsPrefix(Renames);
  }

  /** The position of the last '.', or -1. */
  function LastDot(s: string): (r: int)
    ensures -1 <= r < |s|
    ensures r >= 0 ==> s[r] == '.'
    ensures forall j :: r < j < |s| ==> s[j] != '.'
    decreases |s|
  {
    if s == [] then -1 else if s[|s| - 1] == '.' then |s| - 1 else LastDot(s[..|s| - 1])
  }

  predicate AllDots(s: string) {
    forall i :: 0 <= i < |s| ==> s[i] == '.'
  }

  /** `os.path.splitext(name)[0]`: cut at the last '.', unless only dots
      precede it (a leading-dot name has no extension). */
  function Stem(name: string): (r: string)
    ensures r <= name
  {
    var d := LastDot(name);
    if d >= 0 && !AllDots(name[..d]) then name[..d] else name
  }

  /** `get_gloss_from_filename`. */
  function GlossFromFilename(fileName: string): string {
    var base := Stem(fileName);
    if base in GlossMap then GlossMap[base] else BeforeFirst(base, '_')
  }

  /** The stem of a file the sequence collector saved is "<label>_<n>". */
  lemma CollectorFileStem(signLabel: string, entries: nat)
    ensures Stem(SC.FileName(signLabel, entries)) == signLabel + "_" + NatToString(entries)
  {
    var digits := NatToString(entries);
    NatToStringDigits(entries);
    var base := signLabel + "_" + digits;
    var name := SC.FileName(signLabel, entries);
    assert name == base + ".csv";
    var n1, n2, n3 := name[..|name| - 1], name[..|name| - 2], name[..|name| - 3];
    assert n1 == base + ".cs" && n2 == base + ".c" && n3 == base + ".";
    assert n1[..|n1| - 1] == n2 && n2[..|n2| - 1] == n3;
    assert LastDot(n3) == |base|;
    assert LastDot(name) == |base|;
    assert name[..|base|] == base;
    assert base[|signLabel|] == '_';
  }

  /** A file the sequence collector saved under a label without "_" is
      exported under that label. */
  lemma CollectorFileGloss(signLabel: string, entries: nat)
    requires '_' !in signLabel
    ensures GlossFromFilename(SC.FileName(signLabel, entries)) == signLabel
  {
    GlossMapIsPrefix();
    CollectorFileStem(signLabel, entries);
    BeforeFirstOfJoined(signLabel, '_', NatToString(entries));
    assert signLabel + "_" + NatToString(entries) == signLabel + ['_'] + NatToString(entries);
  }

  datatype Point2 = Point2(x: real, y: real)

  /** `len(s.strip()) > 0` fails. */
  predicate Blank(s: string) {
    Strip(s) == []
  }

  /** A row the comprehension gets through: two fields, and both parse
      unless one of them is blank. */
  predicate RowOk(row: seq<string>, parseFloat: string -> Option<real>) {
    |row| == 2 && (Blank(row[0]) || Blank(row[1]) || (parseFloat(row[0]).Some? && parseFloat(row[1]).Some?))
  }

  predicate Kept(row: seq<string>) {
    |row| == 2 && !Blank(row[0]) && !Blank(row[1])
  }

  /** `[[float(x), float(y)] for x, y in reader if ...]`; `None` when a row
      does not unpack into two fields or a kept field does not parse (the
      whole file is then skipped). */
  function ParseKeypoints(rows: seq<seq<string>>, parseFloat: string -> Option<real>): Option<seq<Point2>>
    decreases |rows|
  {
    if rows == [] then Some([])
    else
      var before := ParseKeypoints(rows[..|rows| - 1], parseFloat);
      var row := rows[|rows| - 1];
      if before.None? || |row| != 2 then None
      else if Blank(row[0]) || Blank(row[1]) then before
      else if parseFloat(row[0]).None? || parseFloat(row[1]).None? then None
      else Some(before.value + [Point2(parseFloat(row[0]).value, parseFloat(row[1]).value)])
  }

  /** The number of rows with two non-blank fields. */
  function KeptCount(rows: seq<seq<string>>): nat
    decreases |rows|
  {
    if rows == [] then 0 else KeptCount(rows[..|rows| - 1]) + (if Kept(rows[|rows| - 1]) then 1 else 0)
  }

  /** A file parses exactly when every row is fine, and then yields one
      keypoint per kept row. */
  lemma {:induction false} ParseKeypointsSpec(rows: seq<seq<string>>, parseFloat: string -> Option<real>)
    ensures ParseKeypoints(rows, parseFloat).Some? <==> forall i :: 0 <= i < |rows| ==> RowOk(rows[i], parseFloat)
    ensures ParseKeypoints(rows, parseFloat).Some? ==> |ParseKeypoints(rows, parseFloat).value| == KeptCount(rows)
    decreases |rows|
  {
    if rows != [] {
      var init := rows[..|rows| - 1];
      ParseKeypointsSpec(init, parseFloat);
      assert forall i :: 0 <= i < |init| ==> init[i] == rows[i];
    }
  }

  /** A directory entry: its name and its CSV rows. */
  datatype CsvFile = CsvFile(name: string, rows: seq<seq<string>>)

  const MinKeypoints := 21

  /** A file as `csv.writer` writes the collector's rows, each cell rendered as text. */
  function WrittenFile(name: string, rows: seq<SC.CsvRow>, render: SC.Cell -> string): CsvFile {
    CsvFile(name, seq(|rows|, i requires 0 <= i < |rows| =>
                        seq(|rows[i]|, j requires 0 <= j < |rows[i]| => render(rows[i][j]))))
  }

  /** The keypoints a file contributes: a ".csv" that parses and has at least 21. */
  function Candidate(file: CsvFile, parseFloat: string -> Option<real>): (r: Option<seq<Point2>>)
    ensures r.Some? ==> |r.value| >= MinKeypoints && EndsWith(file.name, ".csv")
  {
    if !EndsWith(file.name, ".csv") then None
    else
      var keypoints := ParseKeypoints(file.rows, parseFloat);
      if keypoints.None? || |keypoints.value| < MinKeypoints then None else keypoints
  }

  /** The export never takes a file the sequence collector wrote: its rows
      hold 3 coordinates per landmark plus the label, never the two fields
      the export unpacks, and an empty recording has no keypoints at all. */
  lemma CollectorOutputNotExported(sequence: seq<seq<real>>, signLabel: string, entries: nat,
                                   render: SC.Cell -> string, parseFloat: string -> Option<real>)
    requires forall i :: 0 <= i < |sequence| ==> |sequence[i]| % 3 == 0
    ensures Candidate(WrittenFile(SC.FileName(signLabel, entries), SC.LabelledRows(sequence, signLabel), render),
                      parseFloat).None?
  {
    var file := WrittenFile(SC.FileName(signLabel, entries), SC.LabelledRows(sequence, signLabel), render);
    ParseKeypointsSpec(file.rows, parseFloat);
    if sequence == [] {
      assert file.rows == [];
    } else {
      assert |file.rows[0]| == |sequence[0]| + 1;
      assert !RowOk(file.rows[0], parseFloat);
    }
  }

  /** `best_samples`: the kept keypoints per gloss and the order glosses first appeared. */
  datatype Best = Best(samples: map<string, seq<Point2>>, order: seq<string>)

  /** The `if gloss not in best_samples or num_points > ...` update. */
  function Offer(b: Best, gloss: string, keypoints: seq<Point2>): Best {
    if gloss !in b.samples then Best(b.samples[gloss := keypoints], b.order + [gloss])
    else if |keypoints| > |b.samples[gloss]| then Best(b.samples[gloss := keypoints], b.order)
    else b
  }

  /** The (gloss, keypoints) of every candidate file, in listing order. */
  function Offers(files: seq<CsvFile>, parseFloat: string -> Option<real>): (r: seq<(string, seq<Point2>)>)
    ensures |r| <= |files|
    ensures forall k :: 0 <= k < |r| ==> |r[k].1| >= MinKeypoints
    decreases |files|
  {
    if files == [] then []
    else
      var before := Offers(files[..|files| - 1], parseFloat);
      var file := files[|files| - 1];
      var candidate := Candidate(file, parseFloat);
      if candidate.None? then before else before + [(GlossFromFilename(file.name), candidate.value)]
  }

  /** `best_samples` after the given offers. */
  function SelectBest(offers: seq<(string, seq<Point2>)>): Best
    decreases |offers|
  {
    if offers == [] then Best(map[], [])
    else
      var last := offers[|offers| - 1];
      Offer(SelectBest(offers[..|offers| - 1]), last.0, last.1)
  }

  /** A gloss is kept exactly when some offer names it. */
  lemma {:induction false} SelectBestMembership(offers: seq<(string, seq<Point2>)>, gloss: string)
    ensures gloss in SelectBest(offers).samples <==> exists k :: 0 <= k < |offers| && offers[k].0 == gloss
    decreases |offers|
  {
    if offers != [] {
      var n := |offers| - 1;
      SelectBestMembership(offers[..n], gloss);
      assert forall k :: 0 <= k < n ==> offers[..n][k] == offers[k];
      if offers[n].0 == gloss {
        assert gloss in SelectBest(offers).samples;
      }
    }
  }

  /** Offer `i` has the most keypoints among the offers for `gloss`, and
      every earlier one has strictly fewer. */
  ghost predicate FirstMaximum(offers: seq<(string, seq<Point2>)>, gloss: string, i: int) {
    && 0 <= i < |offers| && offers[i].0 == gloss
    && (forall j :: 0 <= j < |offers| && offers[j].0 == gloss ==>
          |offers[j].1| <= |offers[i].1| && (j < i ==> |offers[j].1| < |offers[i].1|))
  }

  /** Per gloss, the kept sample is that of the candidate with the most
      keypoints, the earliest listed among equals. */
  lemma {:induction false} SelectBestIsFirstMaximum(offers: seq<(string, seq<Point2>)>, gloss: string)
    requires gloss in SelectBest(offers).samples
    ensures exists i :: FirstMaximum(offers, gloss, i) && SelectBest(offers).samples[gloss] == offers[i].1
    decreases |offers|
  {
    var n := |offers| - 1;
    var init := offers[..n];
    var b := SelectBest(init);
    assert forall k :: 0 <= k < n ==> init[k] == offers[k];
    if gloss in b.samples {
      SelectBestIsFirstMaximum(init, gloss);
      var i :| FirstMaximum(init, gloss, i) && b.samples[gloss] == init[i].1;
      if offers[n].0 == gloss && |offers[n].1| > |init[i].1| {
        assert FirstMaximum(offers, gloss, n);
      } else {
        assert FirstMaximum(offers, gloss, i);
      }
    } else {
      SelectBestMembership(init, gloss);
      assert FirstMaximum(offers, gloss, n);
    }
  }

  /** The glosses of `best_samples` appear once each, in first-seen order. */
  lemma {:induction false} SelectBestOrder(offers: seq<(string, seq<Point2>)>)
    ensures forall g :: g in SelectBest(offers).samples <==> g in SelectBest(offers).order
    ensures forall i, j :: 0 <= i < j < |SelectBest(offers).order| ==>
              SelectBest(offers).order[i] != SelectBest(offers).order[j]
    decreases |offers|
  {
    if offers != [] {
      var init := offers[..|offers| - 1];
      SelectBestOrder(init);
      var b := SelectBest(init);
      var g := offers[|offers| - 1].0;
      if g !in b.samples {
        assert g !in b.order;
        var order := b.order + [g];
        assert forall i :: 0 <= i < |b.order| ==> order[i] == b.order[i];
      }
    }
  }

  /** One entry of the output: `{"right_hand": keypoints}`. */
  datatype Sample = RightHand(keypoints: seq<Point2>)

  /** `{gloss.upper(): [...] for gloss, keypoints in best_samples.items()}`:
      later glosses win when two upper-case to the same key. */
  function Format(b: Best, order: seq<string>): map<string, seq<Sample>>
    requires forall g :: g in order ==> g in b.samples
    decreases |order|
  {
    if order == [] then map[]
    else
      var g := order[|order| - 1];
      Format(b, order[..|order| - 1])[Upper(g) := [RightHand(b.samples[g])]]
  }

  /** The last gloss in `order` whose upper-case form is `key`, or -1. */
  function LastWithKey(order: seq<string>, key: string): (r: int)
    ensures -1 <= r < |order|
    ensures r >= 0 ==> Upper(order[r]) == key
    ensures forall j :: r < j < |order| ==> Upper(order[j]) != key
    decreases |order|
  {
    if order == [] then -1
    else if Upper(order[|order| - 1]) == key then |order| - 1
    else LastWithKey(order[..|order| - 1], key)
  }

  /** Every output key is an upper-cased gloss holding exactly one sample:
      that of the last gloss with that upper-case form. */
  lemma {:induction false} FormatKeys(b: Best, order: seq<string>, key: string)
    requires forall g :: g in order ==> g in b.samples
    ensures key in Format(b, order) <==> LastWithKey(order, key) >= 0
    ensures key in Format(b, order) ==>
              Format(b, order)[key] == [RightHand(b.samples[order[LastWithKey(order, key)]])]
    decreases |order|
  {
    if order != [] {
      FormatKeys(b, order[..|order| - 1], key);
    }
  }

  /** One more file adds its offer, if it is a candidate. */
  lemma OffersStep(files: seq<CsvFile>, parseFloat: string -> Option<real>, i: nat)
    requires i < |files|
    ensures var c := Candidate(files[i], parseFloat);
            Offers(files[..i + 1], parseFloat)
              == if c.None? then Offers(files[..i], parseFloat)
                 else Offers(files[..i], parseFloat) + [(GlossFromFilename(files[i].name), c.value)]
  {
    assert files[..i + 1][..i] == files[..i];
  }

  /** The selection after one more file. */
  lemma NextOffer(files: seq<CsvFile>, parseFloat: string -> Option<real>, i: nat)
    requires i < |files|
    ensures var c := Candidate(files[i], parseFloat);
            var before := SelectBest(Offers(files[..i], parseFloat));
            SelectBest(Offers(files[..i + 1], parseFloat))
              == if c.None? then before else Offer(before, GlossFromFilename(files[i].name), c.value)
  {
    OffersStep(files, parseFloat, i);
    var c := Candidate(files[i], parseFloat);
    if c.Some? {
      var more := Offers(files[..i + 1], parseFloat);
      assert more[..|more| - 1] == Offers(files[..i], parseFloat);
    }
  }

  /** The body of the selection loop for one listed file: skip it unless it
      is a candidate, else offer its keypoints under its gloss. */
  method ConsiderFile(bestSamples: map<string, seq<Point2>>, order: seq<string>, file: CsvFile,
                      parseFloat: string -> Option<real>)
    returns (samples': map<string, seq<Point2>>, order': seq<string>)
    ensures var c := Candidate(file, parseFloat);
            Best(samples', order')
              == if c.None? then Best(bestSamples, order)
                 else Offer(Best(bestSamples, order), GlossFromFilename(file.name), c.value)
  {
    samples', order' := bestSamples, order;
    if !EndsWith(file.name, ".csv") {
      return;
    }
    var gloss := GlossFromFilename(file.name);
    var keypoints := ParseKeypoints(file.rows, parseFloat);
    if keypoints.None? {
      return;
    }
    var numPoints := |keypoints.value|;
    if numPoints < MinKeypoints {
      return;
    }
    if gloss !in bestSamples || numPoints > |bestSamples[gloss]| {
      if gloss !in bestSamples {
        order' := order + [gloss];
      }
      samples' := bestSamples[gloss := keypoints.value];
    }
  }

  /** The script: the selection loop over the listing, then the output. */
  method ExportPoseDatabase(files: seq<CsvFile>, parseFloat: string -> Option<real>)
    returns (poseDatabase: map<string, seq<Sample>>)
    ensures var b := SelectBest(Offers(files, parseFloat));
            && (forall g :: g in b.order ==> g in b.samples)
            && poseDatabase == Format(b, b.order)
  {
    var bestSamples: map<string, seq<Point2>> := map[];
    var order: seq<string> := [];
    var i := 0;
    while i < |files|
      invariant 0 <= i <= |files|
      invariant Best(bestSamples, order) == SelectBest(Offers(files[..i], parseFloat))
    {
      bestSamples, order := ConsiderFile(bestSamples, order, files[i], parseFloat);
      NextOffer(files, parseFloat, i);
      i := i + 1;
    }
    assert files[..i] == files;
    SelectBestOrder(Offers(files, parseFloat));
    poseDatabase := Format(Best(bestSamples, order), order);
  }
}
