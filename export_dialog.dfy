/** The list of files the export dialog offers: one mint file per sample
    whose first data file has a mint file beside it, named after the data
    file or, on request, after the sample. */
module ExportDialogs {
  import opened Strings
  import opened Formula
  import opened Entities
  import opened SampleBackgrounds
  import opened GudrunFiles

  /** Whether `pattern` occurs in `s` at position `i`. */
  predicate OccursAt(s: string, pattern: string, i: int) {
    0 <= i <= |s| - |pattern| && s[i..i + |pattern|] == pattern
  }

  predicate Occurs(s: string, pattern: string) {
    exists i | 0 <= i <= |s| :: OccursAt(s, pattern, i)
  }

  /** Python's `str.replace`: every non-overlapping occurrence of `pattern`,
      scanning left to right, becomes `replacement`; an empty pattern puts
      the replacement before every character and at the end. */
  function Replace(s: string, pattern: string, replacement: string): string
    decreases |s|
  {
    if pattern == [] then
      replacement + (if s == [] then [] else [s[0]] + Replace(s[1..], pattern, replacement))
    else if pattern <= s then replacement + Replace(s[|pattern|..], pattern, replacement)
    else if s == [] then []
    else [s[0]] + Replace(s[1..], pattern, replacement)
  }

  /** Replacing a pattern by itself changes nothing. */
  lemma {:induction false} ReplaceBySelf(s: string, pattern: string)
    ensures Replace(s, pattern, pattern) == s
    decreases |s|
  {
    if pattern == [] {
      if s != [] {
        ReplaceBySelf(s[1..], pattern);
        ConsSplit(s);
      }
    } else if pattern <= s {
      ReplaceBySelf(s[|pattern|..], pattern);
      PrefixSplit(pattern, s);
    } else if s != [] {
      ReplaceBySelf(s[1..], pattern);
      ConsSplit(s);
    }
  }

  /** A non-empty pattern that does not occur leaves the text unchanged. */
  lemma {:induction false} ReplaceAbsent(s: string, pattern: string, replacement: string)
    ensures pattern != [] && !Occurs(s, pattern) ==> Replace(s, pattern, replacement) == s
    decreases |s|
  {
    if pattern != [] && !Occurs(s, pattern) {
      if pattern <= s {
        assert OccursAt(s, pattern, 0);
      } else if s != [] {
        assert !Occurs(s[1..], pattern) by {
          forall i | 0 <= i <= |s[1..]| && OccursAt(s[1..], pattern, i) ensures OccursAt(s, pattern, i + 1) {
            WindowOfTail(s, i, |pattern|);
          }
        }
        ReplaceAbsent(s[1..], pattern, replacement);
        ConsSplit(s);
      }
    }
  }

  /** Every `a` becomes `b`, one character at a time. */
  function MapChar(s: string, a: char, b: char): (r: string)
    ensures |r| == |s|
    decreases |s|
  {
    if s == [] then [] else [if s[0] == a then b else s[0]] + MapChar(s[1..], a, b)
  }

  /** Replacing a one-character pattern maps that character. */
  lemma {:induction false} ReplaceOneChar(s: string, a: char, b: char)
    ensures Replace(s, [a], [b]) == MapChar(s, a, b)
    decreases |s|
  {
    if s != [] {
      ReplaceOneChar(s[1..], a, b);
      if [a] <= s {
        assert s[0] == a;
      }
    }
  }

  /** `str.translate` with a table that maps each character of `deleted`
      to nothing. */
  function Translate(s: string, deleted: set<char>): (r: string)
    ensures |r| <= |s|
    decreases |s|
  {
    if s == [] then []
    else (if s[0] in deleted then [] else [s[0]]) + Translate(s[1..], deleted)
  }

  /** The characters removed from a sample name. */
  const Forbidden: set<char> := {'/', '\\', '!', '*', '~', ',', '&', '|', '[', ']'}

  /** The extension of an exported file. */
  const MintExtension: string := ".mint01"

  /** The name of the mint file derived from a data file: every occurrence
      of the instrument's data-file type replaced by "mint01". */
  function MintFile(dataFile: string, dataFileType: string): (r: string)
    ensures dataFileType != [] && !Occurs(dataFile, dataFileType) ==> r == dataFile
  {
    ReplaceAbsent(dataFile, dataFileType, "mint01");
    Replace(dataFile, dataFileType, "mint01")
  }

  /** The name of the mint file derived from a sample's name. */
  function NamedAfterSample(name: string): (r: string)
    ensures |MintExtension| <= |r| && r[|r| - |MintExtension|..] == MintExtension
    ensures ' ' !in r && forall c | c in Forbidden :: c !in r
  {
    ReplaceOneChar(name, ' ', '_');
    TranslateMapped(name);
    CleanAllClean(name);
    WithExtension(CleanAll(name));
    Translate(Replace(name, " ", "_"), Forbidden) + MintExtension
  }

  /** Appending the extension to a clean name keeps it clean. */
  lemma WithExtension(base: string)
    requires ' ' !in base && forall c | c in Forbidden :: c !in base
    ensures var r := base + MintExtension;
            && |MintExtension| <= |r| && r[|r| - |MintExtension|..] == MintExtension
            && ' ' !in r && forall c | c in Forbidden :: c !in r
  {
    DropPastAppend(base, MintExtension, 0);
  }

  /** What one character of a sample name becomes in the derived name. */
  function CleanChar(c: char): string {
    if c == ' ' then "_" else if c in Forbidden then "" else [c]
  }

  function CleanAll(s: string): string
    decreases |s|
  {
    if s == [] then [] else CleanChar(s[0]) + CleanAll(s[1..])
  }

  lemma {:induction false} TranslateMapped(s: string)
    ensures Translate(MapChar(s, ' ', '_'), Forbidden) == CleanAll(s)
    decreases |s|
  {
    if s != [] {
      TranslateMapped(s[1..]);
      ConsDrop(if s[0] == ' ' then '_' else s[0], MapChar(s[1..], ' ', '_'));
    }
  }

  /** A cleaned name holds no space and no forbidden character, and is no
      longer than the name. */
  lemma {:induction false} CleanAllClean(s: string)
    ensures ' ' !in CleanAll(s) && (forall c | c in Forbidden :: c !in CleanAll(s)) && |CleanAll(s)| <= |s|
    decreases |s|
  {
    if s != [] {
      CleanAllClean(s[1..]);
    }
  }

  /** The sample-derived name is the name cleaned character by character,
      holds no space and no forbidden character, and ends in ".mint01". */
  lemma NamedAfterSampleClean(name: string)
    ensures NamedAfterSample(name) == CleanAll(name) + MintExtension
    ensures var base := NamedAfterSample(name)[..|NamedAfterSample(name)| - |MintExtension|];
            && ' ' !in base && (forall c | c in Forbidden :: c !in base) && |base| <= |name|
    ensures NamedAfterSample(name)[|NamedAfterSample(name)| - |MintExtension|..] == MintExtension
  {
    ReplaceOneChar(name, ' ', '_');
    TranslateMapped(name);
    CleanAllClean(name);
    TakeAppend(CleanAll(name), MintExtension, |CleanAll(name)|);
    TakeAll(CleanAll(name));
    DropPastAppend(CleanAll(name), MintExtension, 0);
  }

  /** Sample `s` has data files, and the mint file of its first one or the
      file named after it exists. */
  predicate Present(s: Sample, instrument: Instrument, fileExists: (string, string) -> bool) {
    |s.dataFiles.dataFiles| > 0
    && (fileExists(instrument.gudrunInputFileDir, MintFile(s.dataFiles.dataFiles[0], instrument.dataFileType))
        || fileExists(instrument.gudrunInputFileDir, NamedAfterSample(s.name)))
  }

  /** The entry a sample adds to the list, if any. */
  function EntryFor(s: Sample, instrument: Instrument, rename: bool,
                    fileExists: (string, string) -> bool): (r: Option<string>)
    ensures |s.dataFiles.dataFiles| == 0 ==> r == None
    ensures r.Some? ==> fileExists(instrument.gudrunInputFileDir, MintFile(s.dataFiles.dataFiles[0], instrument.dataFileType))
                        || fileExists(instrument.gudrunInputFileDir, NamedAfterSample(s.name))
    ensures r.Some? && rename ==> ' ' !in r.value && forall c | c in Forbidden :: c !in r.value
    ensures Present(s, instrument, fileExists) ==> r.Some?
  {
    if |s.dataFiles.dataFiles| == 0 then None
    else
      var mintFile := MintFile(s.dataFiles.dataFiles[0], instrument.dataFileType);
      var named := NamedAfterSample(s.name);
      if fileExists(instrument.gudrunInputFileDir, mintFile) || fileExists(instrument.gudrunInputFileDir, named) then
        Some(if rename then named else mintFile)
      else None
  }

  /** The files listed for the given samples, in sample order. */
  function ExportList(samples: seq<Sample>, instrument: Instrument, rename: bool,
                      fileExists: (string, string) -> bool): (r: seq<string>)
    ensures |r| <= |samples|
    decreases |samples|
  {
    if samples == [] then []
    else
      var e := EntryFor(samples[|samples| - 1], instrument, rename, fileExists);
      ExportList(samples[..|samples| - 1], instrument, rename, fileExists) + (if e.Some? then [e.value] else [])
  }

  /** `name` is the entry sample `s` adds, and `s` has data files. */
  predicate ListedFor(s: Sample, instrument: Instrument, rename: bool,
                      fileExists: (string, string) -> bool, name: string) {
    |s.dataFiles.dataFiles| > 0 && EntryFor(s, instrument, rename, fileExists) == Some(name)
  }

  /** At most one entry per sample; a sample without data files adds
      nothing; and every entry is the entry of a sample. */
  lemma {:induction false} ExportListShape(samples: seq<Sample>, instrument: Instrument, rename: bool,
                                           fileExists: (string, string) -> bool)
    ensures var r := ExportList(samples, instrument, rename, fileExists);
            && |r| <= |samples|
            && forall k | 0 <= k < |r| ::
                 exists i | 0 <= i < |samples| :: ListedFor(samples[i], instrument, rename, fileExists, r[k])
    decreases |samples|
  {
    if samples != [] {
      var init := samples[..|samples| - 1];
      ExportListShape(init, instrument, rename, fileExists);
      var r := ExportList(samples, instrument, rename, fileExists);
      var r0 := ExportList(init, instrument, rename, fileExists);
      forall k | 0 <= k < |r|
        ensures exists i | 0 <= i < |samples| :: ListedFor(samples[i], instrument, rename, fileExists, r[k])
      {
        if k < |r0| {
          var i :| 0 <= i < |init| && ListedFor(init[i], instrument, rename, fileExists, r0[k]);
          assert samples[i] == init[i];
          assert ListedFor(samples[i], instrument, rename, fileExists, r[k]);
        } else {
          var i := |samples| - 1;
          assert ListedFor(samples[i], instrument, rename, fileExists, r[k]);
        }
      }
    }
  }

  /** Renaming changes the names, not which samples are listed. */
  lemma {:induction false} RenameKeepsCount(samples: seq<Sample>, instrument: Instrument,
                                            fileExists: (string, string) -> bool)
    ensures |ExportList(samples, instrument, true, fileExists)| == |ExportList(samples, instrument, false, fileExists)|
    decreases |samples|
  {
    if samples != [] {
      RenameKeepsCount(samples[..|samples| - 1], instrument, fileExists);
    }
  }

  /** With renaming on, every listed name is a clean sample-derived name. */
  lemma {:induction false} RenamedEntriesClean(samples: seq<Sample>, instrument: Instrument,
                                               fileExists: (string, string) -> bool)
    ensures forall k | 0 <= k < |ExportList(samples, instrument, true, fileExists)| ::
              exists i | 0 <= i < |samples| ::
                ExportList(samples, instrument, true, fileExists)[k] == CleanAll(samples[i].name) + MintExtension
  {
    ExportListShape(samples, instrument, true, fileExists);
    var r := ExportList(samples, instrument, true, fileExists);
    forall k | 0 <= k < |r|
      ensures exists i | 0 <= i < |samples| :: r[k] == CleanAll(samples[i].name) + MintExtension
    {
      var i :| 0 <= i < |samples| && ListedFor(samples[i], instrument, true, fileExists, r[k]);
      NamedAfterSampleClean(samples[i].name);
    }
  }

  /** The name a present sample is listed under. */
  function ListedName(s: Sample, instrument: Instrument, rename: bool): string
    requires |s.dataFiles.dataFiles| > 0
  {
    if rename then NamedAfterSample(s.name) else MintFile(s.dataFiles.dataFiles[0], instrument.dataFileType)
  }

  /** Every sample with data files whose mint file or renamed file exists is
      listed, under the renamed name when renaming and the mint file's name
      otherwise. */
  lemma {:induction false} ExportListComplete(samples: seq<Sample>, instrument: Instrument, rename: bool,
                                              fileExists: (string, string) -> bool)
    ensures forall i | 0 <= i < |samples| && Present(samples[i], instrument, fileExists) ::
              ListedName(samples[i], instrument, rename) in ExportList(samples, instrument, rename, fileExists)
    decreases |samples|
  {
    if samples != [] {
      var init := samples[..|samples| - 1];
      ExportListComplete(init, instrument, rename, fileExists);
      var r0 := ExportList(init, instrument, rename, fileExists);
      var r := ExportList(samples, instrument, rename, fileExists);
      forall i | 0 <= i < |samples| && Present(samples[i], instrument, fileExists)
        ensures ListedName(samples[i], instrument, rename) in r
      {
        if i < |samples| - 1 {
          assert samples[i] == init[i];
          assert ListedName(samples[i], instrument, rename) in r0;
        } else {
          var e := EntryFor(samples[i], instrument, rename, fileExists);
          assert e == Some(ListedName(samples[i], instrument, rename));
          assert r == r0 + [e.value];
        }
      }
    }
  }

  /** `name` is the mint file of the first data file of `s`. */
  predicate MintFileOf(s: Sample, instrument: Instrument, name: string) {
    |s.dataFiles.dataFiles| > 0 && name == MintFile(s.dataFiles.dataFiles[0], instrument.dataFileType)
  }

  /** With renaming off, every listed name is the mint file of a sample's
      first data file. */
  lemma DefaultEntriesAreMintFiles(samples: seq<Sample>, instrument: Instrument,
                                   fileExists: (string, string) -> bool)
    ensures var r := ExportList(samples, instrument, false, fileExists);
            forall k | 0 <= k < |r| :: exists i | 0 <= i < |samples| :: MintFileOf(samples[i], instrument, r[k])
  {
    ExportListShape(samples, instrument, false, fileExists);
    var r := ExportList(samples, instrument, false, fileExists);
    forall k | 0 <= k < |r|
      ensures exists i | 0 <= i < |samples| :: MintFileOf(samples[i], instrument, r[k])
    {
      var i :| 0 <= i < |samples| && ListedFor(samples[i], instrument, false, fileExists, r[k]);
      assert MintFileOf(samples[i], instrument, r[k]);
    }
  }

  lemma ExportListStep(samples: seq<Sample>, i: nat, instrument: Instrument, rename: bool,
                       fileExists: (string, string) -> bool)
    requires i < |samples|
    ensures var e := EntryFor(samples[i], instrument, rename, fileExists);
            ExportList(samples[..i + 1], instrument, rename, fileExists)
            == ExportList(samples[..i], instrument, rename, fileExists) + (if e.Some? then [e.value] else [])
  {
    TakeStep(samples, i);
  }

  class ExportDialog {
    const gudrunFile: GudrunFile
    /** The names shown in the dialog's file list. */
    var filesList: seq<string>

    constructor (gudrunFile: GudrunFile, fileExists: (string, string) -> bool)
      ensures this.gudrunFile == gudrunFile
      ensures filesList == ExportList(AllSamples(gudrunFile.sampleBackgrounds), gudrunFile.instrument, false, fileExists)
    {
      this.gudrunFile := gudrunFile;
      filesList := [];
      new;
      LoadFilesList(fileExists);
    }

    /** `loadFilesList`; `fileExists(dir, name)` stands for whether the file
        `name` exists in the directory `dir`. */
    method LoadFilesList(fileExists: (string, string) -> bool, rename: bool := false)
      modifies this`filesList
      ensures filesList == ExportList(AllSamples(gudrunFile.sampleBackgrounds), gudrunFile.instrument, rename, fileExists)
    {
      filesList := [];
      var samples := AllSamples(gudrunFile.sampleBackgrounds);
      var instrument := gudrunFile.instrument;
      for i := 0 to |samples|
        invariant filesList == ExportList(samples[..i], instrument, rename, fileExists)
      {
        var sample := samples[i];
        ghost var entry := EntryFor(sample, instrument, rename, fileExists);
        ghost var listed := filesList;
        ExportListStep(samples, i, instrument, rename, fileExists);
        if |sample.dataFiles.dataFiles| > 0 {
          var mintFile := MintFile(sample.dataFiles.dataFiles[0], instrument.dataFileType);
          var namedAfterSample := NamedAfterSample(sample.name);
          if fileExists(instrument.gudrunInputFileDir, mintFile)
             || fileExists(instrument.gudrunInputFileDir, namedAfterSample)
          {
            if rename {
              mintFile := namedAfterSample;
            }
            assert entry == Some(mintFile);
            filesList := filesList + [mintFile];
          } else {
            assert entry == None;
          }
        } else {
          assert entry == None;
        }
        assert filesList == listed + (if entry.Some? then [entry.value] else []);
      }
      TakeAll(samples);
    }

    /** `toggleRename`: reloads the list, renaming when the check box state
        is non-zero. */
    method ToggleRename(state: int, fileExists: (string, string) -> bool)
      modifies this`filesList
      ensures filesList == ExportList(AllSamples(gudrunFile.sampleBackgrounds), gudrunFile.instrument, state != 0, fileExists)
    {
      LoadFilesList(fileExists, rename := state != 0);
    }
  }
}
