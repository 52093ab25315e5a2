/** `PurgeFile`: the input for `purge_det`, built from a `GudrunFile`. It
    collects the data files of the normalisation, the sample backgrounds, the
    samples set to run and their containers, each list with its period
    number, and writes one line per data file. */
module PurgeFiles {
  import opened Strings
  import opened Entities
  import opened SampleBackgrounds
  import opened GudrunFiles

  /** Data files written with one period number. */
  datatype Group = Group(files: seq<string>, periodNumber: int)

  /** The line one data file contributes: the name, two spaces, the period
      number, the tab and a newline. */
  function Line(file: string, periodNumber: int): (r: string)
    ensures |file| < |r| && r[..|file|] == file && r[|r| - 1] == Newline
  {
    file + "  " + IntToString(periodNumber) + Tab + "\n"
  }

  /** A file name without a newline gives a line with exactly one newline,
      at its end, and the line starts with the name. */
  lemma LineShape(file: string, periodNumber: int)
    requires Newline !in file
    ensures CountChar(Line(file, periodNumber), Newline) == 1
    ensures Line(file, periodNumber)[..|file|] == file
    ensures Line(file, periodNumber)[|Line(file, periodNumber)| - 1] == Newline
  {
    var p := IntToString(periodNumber);
    CountCharAppend(file + "  " + p + Tab, "\n", Newline);
    CountCharAppend(file + "  " + p, Tab, Newline);
    CountCharAppend(file + "  ", p, Newline);
    CountCharAppend(file, "  ", Newline);
    CountCharAbsent(file, Newline);
    CountCharAbsent("  ", Newline);
    CountCharAbsent(p, Newline);
    CountCharAbsent(Tab, Newline);
    assert CountChar("\n", Newline) == 1 by {
      assert "\n"[1..] == [];
    }
  }

  /** The lines of a list of files sharing one period number, in order. */
  function FileLines(files: seq<string>, periodNumber: int): (r: string)
    ensures r == "" <==> files == []
    decreases |files|
  {
    if files == [] then ""
    else FileLines(files[..|files| - 1], periodNumber) + Line(files[|files| - 1], periodNumber)
  }

  /** The lines of a list of groups, group after group. */
  function GroupLines(groups: seq<Group>): (r: string)
    ensures r == "" <==> FileCount(groups) == 0
    decreases |groups|
  {
    if groups == [] then ""
    else GroupLines(groups[..|groups| - 1])
         + FileLines(groups[|groups| - 1].files, groups[|groups| - 1].periodNumber)
  }

  /** The number of data files in a list of groups. */
  function FileCount(groups: seq<Group>): nat
    decreases |groups|
  {
    if groups == [] then 0 else FileCount(groups[..|groups| - 1]) + |groups[|groups| - 1].files|
  }

  predicate SingleLineNames(files: seq<string>) {
    forall i | 0 <= i < |files| :: Newline !in files[i]
  }

  predicate SingleLineGroups(groups: seq<Group>) {
    forall j | 0 <= j < |groups| :: SingleLineNames(groups[j].files)
  }

  /** Each file name without a newline gives exactly one line. */
  lemma {:induction false} FileLinesCount(files: seq<string>, periodNumber: int)
    requires SingleLineNames(files)
    ensures CountChar(FileLines(files, periodNumber), Newline) == |files|
    decreases |files|
  {
    if files != [] {
      var init := files[..|files| - 1];
      assert SingleLineNames(init) by {
        forall i | 0 <= i < |init| ensures Newline !in init[i] {
          assert init[i] == files[i];
        }
      }
      FileLinesCount(init, periodNumber);
      LineShape(files[|files| - 1], periodNumber);
      CountCharAppend(FileLines(init, periodNumber), Line(files[|files| - 1], periodNumber), Newline);
    }
  }

  lemma {:induction false} GroupLinesCount(groups: seq<Group>)
    requires SingleLineGroups(groups)
    ensures CountChar(GroupLines(groups), Newline) == FileCount(groups)
    decreases |groups|
  {
    if groups != [] {
      var init := groups[..|groups| - 1];
      var last := groups[|groups| - 1];
      assert SingleLineGroups(init) by {
        forall j | 0 <= j < |init| ensures SingleLineNames(init[j].files) {
          assert init[j] == groups[j];
        }
      }
      GroupLinesCount(init);
      FileLinesCount(last.files, last.periodNumber);
      CountCharAppend(GroupLines(init), FileLines(last.files, last.periodNumber), Newline);
    }
  }

  /** The data-file section: normalisation, normalisation background and
      sample background lines, then sample and container lines unless they
      are excluded. */
  function DataFileLines(normalisation: string, normalisationBackground: string,
                         sampleBackground: string, sample: string, container: string,
                         excludeSampleAndCan: bool): (r: string)
    ensures normalisation + normalisationBackground + sampleBackground <= r
    ensures excludeSampleAndCan ==> r == normalisation + normalisationBackground + sampleBackground
  {
    if !excludeSampleAndCan then normalisation + normalisationBackground + sampleBackground + sample + container
    else normalisation + normalisationBackground + sampleBackground
  }

  /** The section holds one line per data file it includes, and excluding
      samples and containers only drops the lines after the sample-background
      ones. */
  lemma DataFileLinesCount(normalisation: Group, normalisationBackground: Group,
                           backgrounds: seq<Group>, samples: seq<Group>, containers: seq<Group>,
                           excludeSampleAndCan: bool)
    requires SingleLineNames(normalisation.files) && SingleLineNames(normalisationBackground.files)
    requires SingleLineGroups(backgrounds) && SingleLineGroups(samples) && SingleLineGroups(containers)
    ensures CountChar(DataFileLines(FileLines(normalisation.files, normalisation.periodNumber),
                                    FileLines(normalisationBackground.files, normalisationBackground.periodNumber),
                                    GroupLines(backgrounds), GroupLines(samples), GroupLines(containers),
                                    excludeSampleAndCan), Newline)
            == |normalisation.files| + |normalisationBackground.files| + FileCount(backgrounds)
               + (if excludeSampleAndCan then 0 else FileCount(samples) + FileCount(containers))
    ensures var n := FileLines(normalisation.files, normalisation.periodNumber);
            var nb := FileLines(normalisationBackground.files, normalisationBackground.periodNumber);
            var b, s, c := GroupLines(backgrounds), GroupLines(samples), GroupLines(containers);
            && DataFileLines(n, nb, b, s, c, true) == n + nb + b
            && DataFileLines(n, nb, b, s, c, false) == DataFileLines(n, nb, b, s, c, true) + (s + c)
  {
    var n := FileLines(normalisation.files, normalisation.periodNumber);
    var nb := FileLines(normalisationBackground.files, normalisationBackground.periodNumber);
    var b, s, c := GroupLines(backgrounds), GroupLines(samples), GroupLines(containers);
    FileLinesCount(normalisation.files, normalisation.periodNumber);
    FileLinesCount(normalisationBackground.files, normalisationBackground.periodNumber);
    GroupLinesCount(backgrounds);
    GroupLinesCount(samples);
    GroupLinesCount(containers);
    CountCharAppend(n, nb, Newline);
    CountCharAppend(n + nb, b, Newline);
    CountCharAppend(n + nb + b, s, Newline);
    CountCharAppend(n + nb + b + s, c, Newline);
    AppendAssoc(n + nb + b, s, c);
  }

  lemma FileLinesStep(files: seq<string>, i: nat, periodNumber: int)
    requires i < |files|
    ensures FileLines(files[..i + 1], periodNumber) == FileLines(files[..i], periodNumber) + Line(files[i], periodNumber)
  {
    assert files[..i + 1][..i] == files[..i];
  }

  lemma GroupLinesStep(groups: seq<Group>, j: nat)
    requires j < |groups|
    ensures GroupLines(groups[..j + 1]) == GroupLines(groups[..j]) + FileLines(groups[j].files, groups[j].periodNumber)
  {
    assert groups[..j + 1][..j] == groups[..j];
  }

  /** The inner loop of `__str__`: starting from the empty text, one line
      per file, in order. */
  method WriteFileLines(files: seq<string>, periodNumber: int) returns (r: string)
    ensures r == FileLines(files, periodNumber)
  {
    r := "";
    for i := 0 to |files|
      invariant r == FileLines(files[..i], periodNumber)
    {
      FileLinesStep(files, i, periodNumber);
      r := r + Line(files[i], periodNumber);
    }
    TakeAll(files);
  }

  /** The nested loops of `__str__` over a list of groups: starting from the
      empty text, the lines of each group in turn. */
  method WriteGroupLines(groups: seq<Group>) returns (r: string)
    ensures r == GroupLines(groups)
  {
    r := "";
    for j := 0 to |groups|
      invariant r == GroupLines(groups[..j])
    {
      var g := groups[j];
      var before := GroupLines(groups[..j]);
      for i := 0 to |g.files|
        invariant r == before + FileLines(g.files[..i], g.periodNumber)
      {
        FileLinesStep(g.files, i, g.periodNumber);
        AppendAssoc(before, FileLines(g.files[..i], g.periodNumber), Line(g.files[i], g.periodNumber));
        r := r + Line(g.files[i], g.periodNumber);
      }
      TakeAll(g.files);
      GroupLinesStep(groups, j);
    }
    TakeAll(groups);
  }

  /** One group per sample background, in order. */
  function BackgroundGroups(sbs: seq<SampleBackground>): (r: seq<Group>)
    reads sbs
    ensures |r| == |sbs|
    ensures forall i | 0 <= i < |sbs| :: r[i] == Group(sbs[i].dataFiles.dataFiles, sbs[i].periodNumber)
    decreases |sbs|
  {
    if sbs == [] then []
    else BackgroundGroups(sbs[..|sbs| - 1]) + [Group(sbs[|sbs| - 1].dataFiles.dataFiles, sbs[|sbs| - 1].periodNumber)]
  }

  /** The samples set to run, background by background. */
  function RunSamples(sbs: seq<SampleBackground>): seq<Sample>
    reads sbs
    decreases |sbs|
  {
    if sbs == [] then [] else RunSamples(sbs[..|sbs| - 1]) + RunningSamples(sbs[|sbs| - 1].samples)
  }

  /** The containers of the given samples, sample by sample. */
  function Containers(samples: seq<Sample>): (r: seq<Container>)
    ensures forall k | 0 <= k < |r| :: exists i | 0 <= i < |samples| :: r[k] in samples[i].containers
    decreases |samples|
  {
    if samples == [] then []
    else
      var r := Containers(samples[..|samples| - 1]) + samples[|samples| - 1].containers;
      assert forall i | 0 <= i < |samples| - 1 :: samples[..|samples| - 1][i] == samples[i];
      r
  }

  /** The group of one sample or container: its data files and period number. */
  function SampleGroup(s: Sample): Group {
    Group(s.dataFiles.dataFiles, s.periodNumber)
  }

  function ContainerGroup(c: Container): Group {
    Group(c.dataFiles.dataFiles, c.periodNumber)
  }

  /** One group per item, in order. */
  function GroupsOf<T>(xs: seq<T>, group: T -> Group): (r: seq<Group>)
    ensures |r| == |xs| && forall i | 0 <= i < |xs| :: r[i] == group(xs[i])
  {
    seq(|xs|, i requires 0 <= i < |xs| => group(xs[i]))
  }

  lemma {:induction false} RunningSamplesAppend(a: seq<Sample>, b: seq<Sample>)
    ensures RunningSamples(a + b) == RunningSamples(a) + RunningSamples(b)
    decreases |a|
  {
    if a == [] {
      assert a + b == b;
    } else {
      assert (a + b)[1..] == a[1..] + b;
      RunningSamplesAppend(a[1..], b);
    }
  }

  /** The samples the purge file writes are exactly the samples set to run,
      taken from the list of all samples in background-then-sample order. */
  lemma {:induction false} RunSamplesInOrder(sbs: seq<SampleBackground>)
    ensures RunSamples(sbs) == RunningSamples(AllSamples(sbs))
    decreases |sbs|
  {
    if sbs != [] {
      var init := sbs[..|sbs| - 1];
      RunSamplesInOrder(init);
      RunningSamplesAppend(AllSamples(init), sbs[|sbs| - 1].samples);
    }
  }

  /** Every container the purge file writes belongs to a sample that is set
      to run and is in one of the sample backgrounds. */
  lemma ContainersOfRunSamples(sbs: seq<SampleBackground>)
    ensures forall k | 0 <= k < |Containers(RunSamples(sbs))| ::
              exists s | s in RunSamples(sbs) :: s.runThisSample && s in AllSamples(sbs)
                                                 && Containers(RunSamples(sbs))[k] in s.containers
  {
    var run := RunSamples(sbs);
    var containers := Containers(run);
    RunSamplesInOrder(sbs);
    forall k | 0 <= k < |containers|
      ensures exists s | s in run :: s.runThisSample && s in AllSamples(sbs) && containers[k] in s.containers
    {
      var i :| 0 <= i < |run| && containers[k] in run[i].containers;
      assert run[i].runThisSample && run[i] in AllSamples(sbs);
    }
  }

  /** Every container of every given sample is listed. */
  lemma {:induction false} ContainersListed(samples: seq<Sample>)
    ensures forall i, j | 0 <= i < |samples| && 0 <= j < |samples[i].containers| ::
              samples[i].containers[j] in Containers(samples)
    decreases |samples|
  {
    if samples != [] {
      var init := samples[..|samples| - 1];
      var last := samples[|samples| - 1];
      ContainersListed(init);
      var r0, r := Containers(init), Containers(samples);
      assert r == r0 + last.containers;
      forall i, j | 0 <= i < |samples| && 0 <= j < |samples[i].containers|
        ensures samples[i].containers[j] in r
      {
        if i < |samples| - 1 {
          assert samples[i] == init[i];
          assert samples[i].containers[j] in r0;
        } else {
          assert r[|r0| + j] == last.containers[j];
        }
      }
    }
  }

  /** Every container of every sample set to run, in any sample background,
      is listed. */
  lemma ContainersOfRunSamplesListed(sbs: seq<SampleBackground>)
    ensures forall k, j | 0 <= k < |AllSamples(sbs)| && 0 <= j < |AllSamples(sbs)[k].containers| ::
              AllSamples(sbs)[k].runThisSample ==> AllSamples(sbs)[k].containers[j] in Containers(RunSamples(sbs))
  {
    var all, run := AllSamples(sbs), RunSamples(sbs);
    RunSamplesInOrder(sbs);
    ContainersListed(run);
    forall k, j | 0 <= k < |all| && 0 <= j < |all[k].containers| && all[k].runThisSample
      ensures all[k].containers[j] in Containers(run)
    {
      assert all[k] in run;
      var i :| 0 <= i < |run| && run[i] == all[k];
      assert run[i].containers[j] in Containers(run);
    }
  }

  class PurgeFile {
    const gudrunFile: GudrunFile
    var excludeSampleAndCan: bool
    var standardDeviation: (int, int)
    var ignoreBad: bool
    var normalisationPeriodNo: int
    var normalisationPeriodNoBg: int
    var normalisationDataFiles: Group
    var normalisationBackgroundDataFiles: Group
    var sampleBackgroundDataFiles: seq<Group>
    var sampleDataFiles: seq<Group>
    var containerDataFiles: seq<Group>
    var normalisationDataFilesString: string
    var normalisationBackgroundDataFilesString: string
    var sampleBackgroundDataFilesString: string
    var sampleDataFilesString: string
    var containerDataFilesString: string

    /** The normalisation fields hold what `collectGudrunFileAttributes`
        reads from the normalisation of the Gudrun file. */
    predicate NormalisationCollected()
      reads this
    {
      var norm := gudrunFile.normalisation;
      && normalisationPeriodNo == norm.periodNumber
      && normalisationPeriodNoBg == norm.periodNumberBg
      && normalisationDataFiles == Group(norm.dataFiles.dataFiles, norm.periodNumber)
      && normalisationBackgroundDataFiles == Group(norm.dataFilesBg.dataFiles, norm.periodNumberBg)
    }

    /** The group lists hold what `collectGudrunFileAttributes` gathers from
        the current state of the sample backgrounds: one group per
        background, one per sample set to run, and one per container of such
        a sample. */
    predicate ListsCollected()
      reads this, gudrunFile.sampleBackgrounds
    {
      var sbs := gudrunFile.sampleBackgrounds;
      && sampleBackgroundDataFiles == BackgroundGroups(sbs)
      && sampleDataFiles == GroupsOf(RunSamples(sbs), SampleGroup)
      && containerDataFiles == GroupsOf(Containers(RunSamples(sbs)), ContainerGroup)
    }

    constructor (gudrunFile: GudrunFile)
      ensures this.gudrunFile == gudrunFile
      ensures excludeSampleAndCan && standardDeviation == (10, 10) && ignoreBad
      ensures NormalisationCollected() && ListsCollected()
    {
      this.gudrunFile := gudrunFile;
      excludeSampleAndCan := true;
      standardDeviation := (10, 10);
      ignoreBad := true;
      normalisationDataFilesString := "";
      normalisationBackgroundDataFilesString := "";
      sampleBackgroundDataFilesString := "";
      sampleDataFilesString := "";
      containerDataFilesString := "";
      new;
      CollectGudrunFileAttributes();
    }

    method CollectGudrunFileAttributes()
      modifies this`normalisationPeriodNo, this`normalisationPeriodNoBg
      modifies this`normalisationDataFiles, this`normalisationBackgroundDataFiles
      modifies this`sampleBackgroundDataFiles, this`sampleDataFiles, this`containerDataFiles
      ensures NormalisationCollected() && ListsCollected()
    {
      CollectNormalisation();
      CollectLists();
    }

    /** The normalisation part of `collectGudrunFileAttributes`. */
    method CollectNormalisation()
      modifies this`normalisationPeriodNo, this`normalisationPeriodNoBg
      modifies this`normalisationDataFiles, this`normalisationBackgroundDataFiles
      ensures NormalisationCollected()
    {
      var norm := gudrunFile.normalisation;
      normalisationPeriodNo := norm.periodNumber;
      normalisationPeriodNoBg := norm.periodNumberBg;
      normalisationDataFiles := Group(norm.dataFiles.dataFiles, norm.periodNumber);
      normalisationBackgroundDataFiles := Group(norm.dataFilesBg.dataFiles, norm.periodNumberBg);
    }

    /** The list-building part of `collectGudrunFileAttributes`. */
    method CollectLists()
      modifies this`sampleBackgroundDataFiles, this`sampleDataFiles, this`containerDataFiles
      ensures ListsCollected()
    {
      var sbs := gudrunFile.sampleBackgrounds;
      var run := RunSamples(sbs);
      sampleBackgroundDataFiles := BackgroundGroups(sbs);
      sampleDataFiles := GroupsOf(run, SampleGroup);
      containerDataFiles := GroupsOf(Containers(run), ContainerGroup);
    }

    /** The normalisation accumulators hold one line per normalisation (and
        normalisation background) data file, with its period number. */
    predicate NormalisationLinesWritten()
      reads this
    {
      && normalisationDataFilesString == FileLines(normalisationDataFiles.files, normalisationPeriodNo)
      && normalisationBackgroundDataFilesString
         == FileLines(normalisationBackgroundDataFiles.files, normalisationPeriodNoBg)
    }

    /** The sample background, sample and container accumulators hold the
        lines of their groups. */
    predicate SampleLinesWritten()
      reads this
    {
      && sampleBackgroundDataFilesString == GroupLines(sampleBackgroundDataFiles)
      && sampleDataFilesString == GroupLines(sampleDataFiles)
      && containerDataFilesString == GroupLines(containerDataFiles)
    }

    /** `__str__`: returns the header followed by the data-file section,
        leaving each accumulator holding the lines it was built from. The
        header lines depend on formatting helpers outside this model and are
        a parameter. */
    method ToString(header: string) returns (r: string)
      modifies this`normalisationDataFilesString, this`normalisationBackgroundDataFilesString
      modifies this`sampleBackgroundDataFilesString, this`sampleDataFilesString
      modifies this`containerDataFilesString
      ensures NormalisationLinesWritten() && SampleLinesWritten()
      ensures r == header + DataFileLines(normalisationDataFilesString, normalisationBackgroundDataFilesString,
                                          sampleBackgroundDataFilesString, sampleDataFilesString,
                                          containerDataFilesString, excludeSampleAndCan)
    {
      WriteNormalisationLines();
      WriteSampleLines();
      var dataFileLines := DataFileLines(normalisationDataFilesString, normalisationBackgroundDataFilesString,
                                         sampleBackgroundDataFilesString, sampleDataFilesString,
                                         containerDataFilesString, excludeSampleAndCan);
      r := header + dataFileLines;
    }

    /** The first part of `__str__`: resets the two normalisation
        accumulators and appends one line per data file. */
    method WriteNormalisationLines()
      modifies this`normalisationDataFilesString, this`normalisationBackgroundDataFilesString
      ensures NormalisationLinesWritten()
    {
      normalisationDataFilesString := "";
      normalisationBackgroundDataFilesString := "";
      normalisationDataFilesString := WriteFileLines(normalisationDataFiles.files, normalisationPeriodNo);
      normalisationBackgroundDataFilesString :=
        WriteFileLines(normalisationBackgroundDataFiles.files, normalisationPeriodNoBg);
    }

    /** The second part of `__str__`: resets the sample background, sample
        and container accumulators and appends the lines of each group. */
    method WriteSampleLines()
      modifies this`sampleBackgroundDataFilesString, this`sampleDataFilesString
      modifies this`containerDataFilesString
      ensures SampleLinesWritten()
    {
      sampleBackgroundDataFilesString := "";
      sampleDataFilesString := "";
      containerDataFilesString := "";
      sampleBackgroundDataFilesString := WriteGroupLines(sampleBackgroundDataFiles);
      sampleDataFilesString := WriteGroupLines(sampleDataFiles);
      containerDataFilesString := WriteGroupLines(containerDataFiles);
    }

    /** The field updates `purge` makes before writing the file and starting
        `purge_det`. */
    method Purge(standardDeviation: (int, int) := (10, 10), ignoreBad: bool := true,
                 excludeSampleAndCan: bool := true)
      modifies this`standardDeviation, this`ignoreBad, this`excludeSampleAndCan
      ensures this.standardDeviation == standardDeviation && this.ignoreBad == ignoreBad
      ensures this.excludeSampleAndCan == excludeSampleAndCan
    {
      this.standardDeviation := standardDeviation;
      this.ignoreBad := ignoreBad;
      this.excludeSampleAndCan := excludeSampleAndCan;
    }
  }
}
