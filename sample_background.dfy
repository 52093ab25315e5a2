/** `SampleBackground`: a background measurement, its data files and the
    samples measured against it, and the text block it contributes to the
    Gudrun input file. */
module SampleBackgrounds {
  import opened Strings
  import opened Entities

  /** The ten-space separator the input-file format puts before each comment. */
  const Tab: string := "          "

  /** The samples set to run, in their original order. */
  function RunningSamples(samples: seq<Sample>): (r: seq<Sample>)
    ensures |r| <= |samples|
    ensures forall i | 0 <= i < |r| :: r[i] in samples && r[i].runThisSample
    ensures forall i | 0 <= i < |samples| :: samples[i].runThisSample ==> samples[i] in r
    decreases |samples|
  {
    if samples == [] then []
    else (if samples[0].runThisSample then [samples[0]] else []) + RunningSamples(samples[1..])
  }

  /** The containers marked to run as samples, in their original order. */
  function RunAsSample(containers: seq<Container>): (r: seq<Container>)
    ensures forall i | 0 <= i < |r| :: r[i] in containers && r[i].runAsSample
    ensures forall i | 0 <= i < |containers| :: containers[i].runAsSample ==> containers[i] in r
    decreases |containers|
  {
    if containers == [] then []
    else (if containers[0].runAsSample then [containers[0]] else []) + RunAsSample(containers[1..])
  }

  /** The samples `__str__` writes: every sample when `writeAll` is set,
      otherwise only those set to run. */
  function SelectedSamples(samples: seq<Sample>, writeAll: bool): (r: seq<Sample>)
    ensures forall i | 0 <= i < |r| :: r[i] in samples && (writeAll || r[i].runThisSample)
    ensures forall i | 0 <= i < |samples| :: writeAll || samples[i].runThisSample ==> samples[i] in r
    ensures writeAll ==> r == samples
  {
    if writeAll then samples else RunningSamples(samples)
  }

  /** The containers, of every sample in turn, that are converted into samples
      and written after the selected samples. */
  function ConvertedContainers(samples: seq<Sample>): (r: seq<Container>)
    ensures forall k | 0 <= k < |r| :: r[k].runAsSample && exists i | 0 <= i < |samples| :: r[k] in samples[i].containers
    ensures forall i, j | 0 <= i < |samples| && 0 <= j < |samples[i].containers| ::
              samples[i].containers[j].runAsSample ==> samples[i].containers[j] in r
    decreases |samples|
  {
    if samples == [] then []
    else
      var r := RunAsSample(samples[0].containers) + ConvertedContainers(samples[1..]);
      assert forall i | 1 <= i < |samples| :: samples[1..][i - 1] == samples[i];
      r
  }

  function Texts<T>(text: T -> string, xs: seq<T>): (r: seq<string>)
    ensures |r| == |xs| && forall i | 0 <= i < |xs| :: r[i] == text(xs[i])
  {
    seq(|xs|, i requires 0 <= i < |xs| => text(xs[i]))
  }

  /** The data-files line, present only when there is at least one file. */
  function DataFilesLine(dataFiles: DataFiles, dataFilesText: DataFiles -> string): (r: string)
    ensures r == "" <==> |dataFiles.dataFiles| == 0
  {
    if |dataFiles.dataFiles| > 0 then dataFilesText(dataFiles) + "\n" else ""
  }

  /** The selected samples and then the converted containers, one text each,
      joined by newlines. */
  function SamplesSection(samples: seq<Sample>, writeAll: bool,
                          sampleText: Sample -> string, convertedText: Container -> string): string
  {
    Join("\n", Texts(sampleText, SelectedSamples(samples, writeAll))
               + Texts(convertedText, ConvertedContainers(samples)))
  }

  /** The whole block `__str__` returns. */
  function Text(periodNumber: int, dataFiles: DataFiles, samples: seq<Sample>, writeAll: bool,
                sampleText: Sample -> string, convertedText: Container -> string,
                dataFilesText: DataFiles -> string): string
  {
    "SAMPLE BACKGROUND" + Tab + "{\n\n"
    + IntToString(|dataFiles.dataFiles|) + "  " + IntToString(periodNumber) + Tab
    + "Number of  files and period number\n"
    + DataFilesLine(dataFiles, dataFilesText) + "\n"
    + "}\n"
    + SamplesSection(samples, writeAll, sampleText, convertedText)
  }

  /** The samples section is the selected samples' texts, in order, and after
      them the converted containers' texts, in order, one newline between
      consecutive texts. */
  lemma SamplesSectionOrder(samples: seq<Sample>, writeAll: bool,
                            sampleText: Sample -> string, convertedText: Container -> string)
    ensures var ss := Texts(sampleText, SelectedSamples(samples, writeAll));
            var cs := Texts(convertedText, ConvertedContainers(samples));
            var section := SamplesSection(samples, writeAll, sampleText, convertedText);
            && (cs == [] ==> section == Join("\n", ss))
            && (ss == [] ==> section == Join("\n", cs))
            && (ss != [] && cs != [] ==> section == Join("\n", ss) + "\n" + Join("\n", cs))
  {
    var ss := Texts(sampleText, SelectedSamples(samples, writeAll));
    var cs := Texts(convertedText, ConvertedContainers(samples));
    if cs == [] {
      assert ss + cs == ss;
    } else if ss == [] {
      assert ss + cs == cs;
    } else {
      JoinAppend("\n", ss, cs);
    }
  }

  /** The newlines of the samples section: those inside the texts of the
      selected samples and converted containers, plus one between each
      consecutive pair; an empty section when there is nothing to write. */
  lemma SamplesSectionLines(samples: seq<Sample>, writeAll: bool,
                            sampleText: Sample -> string, convertedText: Container -> string)
    ensures var parts := Texts(sampleText, SelectedSamples(samples, writeAll))
                         + Texts(convertedText, ConvertedContainers(samples));
            var section := SamplesSection(samples, writeAll, sampleText, convertedText);
            && (parts == [] ==> section == "")
            && (parts != [] ==> CountChar(section, Newline) == CountIn(parts, Newline) + |parts| - 1)
  {
    var parts := Texts(sampleText, SelectedSamples(samples, writeAll))
                 + Texts(convertedText, ConvertedContainers(samples));
    if parts != [] {
      JoinCount(Newline, parts);
    }
  }

  class SampleBackground {
    var periodNumber: int
    var dataFiles: DataFiles
    var samples: seq<Sample>
    /** A one-shot request to write every sample, not only those set to run;
        writing the block resets it. */
    var writeAllSamples: bool

    constructor ()
      ensures periodNumber == 1 && dataFiles == DataFiles([], "SAMPLE BACKGROUND")
      ensures samples == [] && writeAllSamples
    {
      periodNumber := 1;
      dataFiles := DataFiles([], "SAMPLE BACKGROUND");
      samples := [];
      writeAllSamples := true;
    }

    /** `__str__`: the block for this background, choosing the samples with
        the flag's value on entry, after which the flag is set again. The
        texts of samples, converted containers and the data-file list come
        from code outside this model and are parameters. */
    method ToString(sampleText: Sample -> string, convertedText: Container -> string,
                    dataFilesText: DataFiles -> string) returns (r: string)
      modifies this`writeAllSamples
      ensures writeAllSamples
      ensures r == Text(periodNumber, dataFiles, samples, old(writeAllSamples),
                        sampleText, convertedText, dataFilesText)
    {
      var section := SamplesSection(samples, writeAllSamples, sampleText, convertedText);
      writeAllSamples := true;
      r := "SAMPLE BACKGROUND" + Tab + "{\n\n"
           + IntToString(|dataFiles.dataFiles|) + "  " + IntToString(periodNumber) + Tab
           + "Number of  files and period number\n"
           + DataFilesLine(dataFiles, dataFilesText) + "\n"
           + "}\n"
           + section;
    }
  }
}
