# GudPy core logic in Dafny

GudPy is a graphical front end for Gudrun, the neutron total-scattering
data-reduction program. This project models the sequential logic at the core
of a few of its parts, and proves properties of it:

- **The chemical-formula parser** behind `Component.parse`. It scans a formula
  such as `H[3]12.0C[13]6.5` from left to right into element records
  `(atomicSymbol, massNo, abundance)`:
  - a symbol is one upper-case letter and an optional lower-case letter, and
    the two-letter reading wins;
  - `D` stands for hydrogen with mass number 2;
  - an optional `[n]` gives the mass number, which is 0 (natural) otherwise;
  - an optional decimal gives the abundance, which is 1.0 otherwise.

  Text that cannot be scanned gives no records. A known symbol with an isotope
  outside its valid set raises. The element/isotope table is a parameter
  (`MassTable`: symbol to valid mass numbers), and abundances are exact reals.
- **`PurgeFile`**, the input file of `purge_det`:
  - its defaults;
  - the data-file groups it collects from a `GudrunFile`: normalisation,
    normalisation background, every sample background, the samples set to run
    and their containers;
  - the data-file section `__str__` writes, one `"{file}  {period}{TAB}\n"`
    line per file, where samples and containers are dropped when
    `excludeSampleAndCan` is set;
  - the settings `purge` stores.
- **`SampleBackground`**: its defaults, and the text `__str__` writes. That
  text is the data-file line, then every sample or only those set to run, then
  the containers converted to samples. Writing it resets the one-shot
  `writeAllSamples` flag.
- **The composition table**:
  - the editing rules of `CompositionModel` (`setData`, `insertRow`,
    `columnCount`), including the `D` alias and the refusal of unknown symbols;
  - the list of compositions `CompositionTable.farmCompositions` offers to
    copy from.
- **The export dialog**: the list of mint files `loadFilesList` offers, and
  `toggleRename`. Each file is named after the sample's first data file, or on
  request after the sample itself, with spaces replaced and forbidden
  characters deleted.

Files:

| file | module | contents |
|---|---|---|
| `strings.dfy` | `Strings` | digits, numerals (`str` of an int), counting, `join`, sequence lemmas |
| `formula.dfy` | `Formula` | element records, the scanner, `ParseFormula`, class `Component` |
| `formula_properties.dfy` | `FormulaProperties` | round trip from written tokens, composition of scans, failure tiers |
| `formula_examples.dfy` | `FormulaExamples` | the parser tests' formulas |
| `entities.dfy` | `Entities` | `DataFiles`, `Composition`, `Container`, `Sample`, `Normalisation`, `Instrument` |
| `sample_background.dfy` | `SampleBackgrounds` | class `SampleBackground` and its text |
| `gudrun_file.dfy` | `GudrunFiles` | the parts of `GudrunFile` read here; all samples in order |
| `purge_file.dfy` | `PurgeFiles` | class `PurgeFile`, its groups and lines |
| `composition_table.dfy` | `CompositionTables` | `CompositionModel`, `CompositionTable` |
| `export_dialog.dfy` | `ExportDialogs` | `str.replace`, `str.translate`, the file names, class `ExportDialog` |

Stateful parts are classes whose methods change fields, with loops carrying
invariants. Each method is proved against a function of the inputs, and the
properties are proved about those functions. The parser implementation
(`core/composition.py`, `core/mass_data.py`) is not part of this model.
`Formula` models the behaviour its tests pin down, so its rows cite the test
file.

## Model

| member | source | states |
|---|---|---|
| Formula.ReadSymbol | gudpy/test/test_chemical_parser.py:49-83 | a symbol is read only at an upper-case letter and must be known (or be the `D` alias); the two-letter reading is taken exactly when it is a known symbol; no symbol is read exactly when neither reading is known |
| Formula.ReadIsotope | gudpy/test/test_chemical_parser.py:141-177 | no bracket means the natural isotope; `[`, one or more digits and `]` is always read as the mass number those digits denote, spanning the brackets; anything else after `[` is malformed |
| Formula.ReadAbundance | gudpy/test/test_chemical_parser.py:85-116 | the abundance is omitted exactly when no digit follows; a number is the longest run of digits taken from the text, then, when a point follows, the point and the longest run of digits after it; a point that no digit follows is a bad number, and only then |
| Formula.NumberValue | gudpy/test/test_chemical_parser.py:85-107 | an abundance read from digits is never negative |
| Formula.FractionValueBounds | gudpy/test/test_chemical_parser.py:85-107 | the digits after the point add a value in [0, 1) |
| Formula.ScanToken | gudpy/test/test_chemical_parser.py:49-83 | a scanned token consumes at least one character and no more than the text, so scanning advances |
| Formula.TokenAfter | gudpy/test/test_chemical_parser.py:85-107 | reading the abundance never raises, and the token ends inside the text |
| Formula.Scan | gudpy/test/test_chemical_parser.py:49-139 | the left-to-right scan, token by token, stopping at the first failure; a clean scan of non-empty text yields at least one record and no more records than characters; its round trip, composition and failure tiers are ScanWritten, ScanAppend and the failure lemmas below |
| Formula.ParseFormula | gudpy/test/test_chemical_parser.py:109-139 | a clean scan gives exactly the scanned records, an unscannable text gives no records, and a raise carries the scanner's error |
| Formula.Component.constructor | gudpy/test/test_chemical_parser.py:12-13 | a new component holds its formula and no elements |
| Formula.Component.Parse | gudpy/test/test_chemical_parser.py:9-31 | after parsing, `elements` holds the parsed records (none for unscannable text); a raise is reported and leaves `elements` untouched |
| FormulaProperties.TokenOfWritten | gudpy/test/test_chemical_parser.py:33-47 | any well-formed token reads back as its meaning: `D` becomes H with mass 2, an absent isotope gives 0, an absent abundance gives 1.0 |
| FormulaProperties.DecimalOfWritten | gudpy/test/test_chemical_parser.py:85-107 | a written decimal is read back whole and its value is exactly the decimal's value |
| FormulaProperties.ScanWritten | gudpy/test/test_chemical_parser.py:49-83 | a formula written from well-formed tokens scans to one record per token, in input order, with repeats kept |
| FormulaProperties.ParseWritten | gudpy/test/test_chemical_parser.py:9-107 | the same for the parse: the result is exactly the tokens' records |
| FormulaProperties.ScanAppend | gudpy/test/test_chemical_parser.py:109-139 | scanning text that ends at a token boundary, then more text, gives the first part's records followed by whatever the rest gives, failures included |
| FormulaProperties.UnscannableDiscardsPrefix | gudpy/test/test_chemical_parser.py:109-116 | unscannable text after valid tokens empties the whole result |
| FormulaProperties.UnknownSymbolAnywhere | gudpy/test/test_chemical_parser.py:118-139 | an unknown symbol after any valid tokens empties the whole result |
| FormulaProperties.UnknownPairIsEmpty | gudpy/test/test_chemical_parser.py:118-139 | a formula starting with an unknown two-letter symbol gives no records |
| FormulaProperties.UnknownLastPairIsEmpty | gudpy/test/test_chemical_parser.py:125-132 | text made only of letter pairs whose last pair is not a known symbol does not scan, whichever earlier pairs are known |
| FormulaProperties.LowercaseStartIsEmpty | gudpy/test/test_chemical_parser.py:25-31 | a formula not starting with an upper-case letter gives no records and does not raise |
| FormulaProperties.PointWithoutDigitEmpties | gudpy/test/test_chemical_parser.py:109-116 | a point with no digit after it empties the whole result |
| FormulaProperties.InvalidIsotopeRaises | gudpy/test/test_chemical_parser.py:179-228 | a known symbol with a mass number outside its valid set raises, naming the symbol, the mass number and the valid set, whatever follows |
| FormulaProperties.InvalidIsotopeAnywhere | gudpy/test/test_chemical_parser.py:196-228 | the same after any valid tokens |
| FormulaProperties.ScanRecordsValid | gudpy/test/test_chemical_parser.py:141-177 | every scanned record has a non-negative abundance and either a known symbol with mass number 0 or one valid for it, or is hydrogen-2 from the alias |
| FormulaProperties.ParseRecordsValid | gudpy/test/test_chemical_parser.py:141-177 | the same for every parsed record |
| FormulaExamples.Water | gudpy/test/test_chemical_parser.py:9-23 | `H2O` parses to exactly (H, 0, 2.0), (O, 0, 1.0) |
| FormulaExamples.LowercaseWater | gudpy/test/test_chemical_parser.py:25-31 | `h2o` parses to no records |
| FormulaExamples.HeavyWater | gudpy/test/test_chemical_parser.py:33-47 | `D2O` parses to (H, 2, 2.0), (O, 0, 1.0) |
| FormulaExamples.SodiumChloride | gudpy/test/test_chemical_parser.py:49-83 | `NaCl9` parses to (Na, 0, 1.0), (Cl, 0, 9.0) |
| FormulaExamples.DecimalAbundances | gudpy/test/test_chemical_parser.py:85-107 | `Ar33.0Au26.5` parses to abundances exactly 33.0 and 26.5 |
| FormulaExamples.TrailingPoint | gudpy/test/test_chemical_parser.py:109-116 | `H2O1./` parses to no records |
| FormulaExamples.UnknownLeadingPairs | gudpy/test/test_chemical_parser.py:118-132 | `Ng12KThPa` and `OgTsLvNoRk` parse to no records, the second whichever of Og, Ts, Lv and No are known |
| FormulaExamples.UnknownAfterKnown | gudpy/test/test_chemical_parser.py:134-139 | `NdPmZkNeMk` parses to no records |
| FormulaExamples.Tritium | gudpy/test/test_chemical_parser.py:141-152 | `H[3]` parses to (H, 3, 1.0) |
| FormulaExamples.CarbonThirteen | gudpy/test/test_chemical_parser.py:154-177 | `C[13]6.5` parses to (C, 13, 6.5) |
| FormulaExamples.TooHeavyHydrogen | gudpy/test/test_chemical_parser.py:179-194 | `H[4]` raises when 4 is not a valid mass number of H |
| FormulaExamples.TooHeavyHydrogenFirst | gudpy/test/test_chemical_parser.py:196-211 | `H[4]O[2]99.2` raises on H[4] |
| Strings.IntToString | gudpy/core/purge_file.py:225 | `str` of an int is non-empty, has no newline, and reads back as the number |
| GudrunFiles.AllSamplesMembers | gudpy/gui/widgets/dialogs/export_dialog.py:80-82 | the flattened list holds exactly the samples of the sample backgrounds |
| GudrunFiles.AllSamples | gudpy/gui/widgets/dialogs/export_dialog.py:80-82 | every sample of every sample background, background by background; its members are stated by AllSamplesMembers |
| PurgeFiles.PurgeFile.constructor | gudpy/core/purge_file.py:78-95 | a new purge file excludes samples and cans, has standard deviation (10, 10), ignores bad spectra, and has collected its attributes |
| PurgeFiles.PurgeFile.CollectGudrunFileAttributes | gudpy/core/purge_file.py:157-191 | the normalisation period numbers and data-file groups, and the three group lists, match the Gudrun file's current state |
| PurgeFiles.PurgeFile.CollectNormalisation | gudpy/core/purge_file.py:157-171 | the normalisation fields hold the normalisation's files and period numbers |
| PurgeFiles.PurgeFile.CollectLists | gudpy/core/purge_file.py:177-191 | one group per sample background, one per sample set to run, one per container of such a sample |
| PurgeFiles.BackgroundGroups | gudpy/core/purge_file.py:177-180 | exactly one group per sample background, in order, with its files and period number |
| PurgeFiles.RunSamplesInOrder | gudpy/core/purge_file.py:181-185 | the samples written are exactly those set to run, in background-then-sample order |
| PurgeFiles.ContainersOfRunSamples | gudpy/core/purge_file.py:186-191 | every container listed belongs to a sample that is set to run |
| PurgeFiles.ContainersOfRunSamplesListed | gudpy/core/purge_file.py:186-191 | every container of every sample set to run is listed |
| PurgeFiles.ContainersListed | gudpy/core/purge_file.py:186-191 | every container of every given sample is in the flattened list |
| PurgeFiles.Line | gudpy/core/purge_file.py:223-226 | the line one data file contributes, `{file}  {period}{TAB}\n`: longer than the name, starting with the name and ending in a newline |
| PurgeFiles.FileLines | gudpy/core/purge_file.py:223-231 | the lines of a list of files sharing a period number, in order; empty exactly when there are no files |
| PurgeFiles.GroupLines | gudpy/core/purge_file.py:239-260 | the lines of a list of groups, group after group; empty exactly when the groups hold no file |
| PurgeFiles.DataFileLines | gudpy/core/purge_file.py:262-273 | the data-file section: it always starts with the normalisation, normalisation-background and sample-background lines, and is exactly those when samples and containers are excluded |
| PurgeFiles.RunSamples | gudpy/core/purge_file.py:181-185 | the samples set to run, background by background; RunSamplesInOrder proves it the ordered filter of all samples |
| PurgeFiles.Containers | gudpy/core/purge_file.py:186-191 | the containers of the given samples, sample by sample; each belongs to one of the samples (ContainersListed gives the converse) |
| PurgeFiles.GroupsOf | gudpy/core/purge_file.py:181-191 | one (data files, period number) group per sample or container, pointwise and in order |
| PurgeFiles.LineShape | gudpy/core/purge_file.py:223-260 | a data-file line starts with the file name and holds exactly one newline, at its end |
| PurgeFiles.FileLinesCount | gudpy/core/purge_file.py:223-230 | a list of files gives exactly one line per file |
| PurgeFiles.GroupLinesCount | gudpy/core/purge_file.py:236-260 | a list of groups gives exactly one line per file across all groups |
| PurgeFiles.WriteFileLines | gudpy/core/purge_file.py:223-230 | the loop builds the lines of the files, in order |
| PurgeFiles.WriteGroupLines | gudpy/core/purge_file.py:239-260 | the nested loops build the lines of each group in turn |
| PurgeFiles.DataFileLinesCount | gudpy/core/purge_file.py:262-273 | the section has one line per normalisation, normalisation-background and sample-background file, plus one per sample and container file unless they are excluded; excluding keeps the first three groups' lines in order, and including appends the sample and then the container lines |
| PurgeFiles.PurgeFile.ToString | gudpy/core/purge_file.py:216-300 | every accumulator is rebuilt from its group from empty, and the result is the header and then the data-file section; the result does not depend on earlier accumulator values |
| PurgeFiles.PurgeFile.WriteNormalisationLines | gudpy/core/purge_file.py:217-231 | the normalisation accumulators are reset and hold one line per file |
| PurgeFiles.PurgeFile.WriteSampleLines | gudpy/core/purge_file.py:232-260 | the other three accumulators are reset and hold the lines of their groups |
| PurgeFiles.PurgeFile.Purge | gudpy/core/purge_file.py:303-335 | the three arguments, by default (10, 10), True and True, are stored in their fields |
| SampleBackgrounds.SampleBackground.constructor | gudpy/core/sample_background.py:21-33 | period number 1, no data files, no samples, `writeAllSamples` set |
| SampleBackgrounds.RunningSamples | gudpy/core/sample_background.py:63 | exactly the samples set to run, drawn from the given ones |
| SampleBackgrounds.SelectedSamples | gudpy/core/sample_background.py:60-63 | with the flag set, all samples in order; otherwise exactly those set to run |
| SampleBackgrounds.ConvertedContainers | gudpy/core/sample_background.py:54-59 | exactly the containers, of any sample, that run as samples |
| SampleBackgrounds.RunAsSample | gudpy/core/sample_background.py:54-59 | exactly the containers that run as samples |
| SampleBackgrounds.DataFilesLine | gudpy/core/sample_background.py:67-72 | the data-file line is empty exactly when there are no data files |
| SampleBackgrounds.SamplesSection | gudpy/core/sample_background.py:54-64 | the samples part of the block, `"\n".join([*samples, *CONV_SAMPLES])`; its order and newlines are stated by SamplesSectionOrder and SamplesSectionLines |
| SampleBackgrounds.Text | gudpy/core/sample_background.py:74-82 | the whole block `__str__` returns: header, count line, data-file line, closing brace, then the samples section; ToString is proved to return it |
| SampleBackgrounds.SamplesSectionLines | gudpy/core/sample_background.py:64 | the section's newlines are those inside the sample and container texts plus one between each consecutive pair, and the section is empty when there is nothing to write |
| SampleBackgrounds.SamplesSectionOrder | gudpy/core/sample_background.py:54-64 | the section is the selected samples' texts joined by newlines, then a newline, then the converted containers' texts joined by newlines |
| SampleBackgrounds.SampleBackground.ToString | gudpy/core/sample_background.py:40-82 | the text uses the flag's value on entry, the count line shows the file count and period number, and the flag is set afterwards |
| CompositionTables.ColumnCount | gudpy/gui/widgets/tables/composition_table.py:45-59 | the column count is the number of mapped attributes, and every column in range has an attribute |
| CompositionTables.Edit | gudpy/gui/widgets/tables/composition_table.py:61-84 | the effect of `setData`: the rows keep their number, no row other than the edited one changes, and a refused symbol changes nothing; the rules case by case are the lemmas below |
| CompositionTables.DeuteriumAlias | gudpy/gui/widgets/tables/composition_table.py:76-80 | editing the symbol to `D` makes the row hydrogen-2, keeps its abundance, returns True and changes no other row |
| CompositionTables.DeuteriumAliasAsParsed | gudpy/gui/widgets/tables/composition_table.py:76-80 | the alias gives the same symbol and mass number as parsing `D` |
| CompositionTables.UnknownSymbolRejected | gudpy/gui/widgets/tables/composition_table.py:81-82 | a symbol not in the mass table returns False and changes nothing |
| CompositionTables.OrdinaryEdit | gudpy/gui/widgets/tables/composition_table.py:83 | any other edit writes only the column's attribute of the edited row and returns None; a whole number in the abundance column is stored as that amount |
| CompositionTables.OtherRolesIgnored | gudpy/gui/widgets/tables/composition_table.py:75 | a role other than EditRole changes nothing, whatever the index and the value |
| CompositionTables.EditKeepsSymbolsKnown | gudpy/gui/widgets/tables/composition_table.py:61-84 | edits keep every row's symbol empty, known, or hydrogen |
| CompositionTables.InsertKeepsSymbolsKnown | gudpy/gui/widgets/tables/composition_table.py:92-96 | the default row keeps every symbol empty, known, or hydrogen |
| CompositionTables.CompositionModel.SetData | gudpy/gui/widgets/tables/composition_table.py:61-84 | the return value and the new rows are those of the editing rules; with a role other than EditRole any index and value are accepted |
| CompositionTables.CompositionModel.constructor | gudpy/gui/widgets/tables/composition_table.py:31-45 | the model holds the given mass table and the given rows |
| CompositionTables.CompositionModel.InsertRow | gudpy/gui/widgets/tables/composition_table.py:92-96 | exactly one `Element("", 0, 0.0)` is appended and the other rows are untouched |
| CompositionTables.CompositionTable.constructor | gudpy/gui/widgets/tables/composition_table.py:238-251 | no compositions and no parent object |
| CompositionTables.CompositionTable.MakeModel | gudpy/gui/widgets/tables/composition_table.py:253-270 | the parent object is recorded, and the compositions are farmed only when asked, which is the default |
| CompositionTables.ContainerEntries | gudpy/gui/widgets/tables/composition_table.py:309-313 | the entries of a sample's containers other than the parent, in order; never more entries than containers |
| CompositionTables.SamplesEntries | gudpy/gui/widgets/tables/composition_table.py:306-313 | each sample's entry, unless it is the parent, followed by its containers' entries, sample by sample; SamplesEntriesAsExcept relates it to the flat reference |
| CompositionTables.BackgroundsEntries | gudpy/gui/widgets/tables/composition_table.py:305-313 | the samples' entries of every sample background in turn; BackgroundsEntriesAsExcept relates it to the flat reference |
| CompositionTables.Farmed | gudpy/gui/widgets/tables/composition_table.py:298-313 | the list `farmCompositions` builds, which always starts with the normalisation's composition; FarmedAsExcept states the rest |
| CompositionTables.CompositionTable.FarmCompositions | gudpy/gui/widgets/tables/composition_table.py:298-313 | the list is rebuilt from scratch by the nested loops |
| CompositionTables.CompositionTable.AppendSamplesEntries | gudpy/gui/widgets/tables/composition_table.py:306-313 | the loop over one background's samples appends exactly their entries, each sample before its containers, the parent left out |
| CompositionTables.CompositionTable.AppendContainerEntries | gudpy/gui/widgets/tables/composition_table.py:309-313 | the loop over one sample's containers appends exactly their entries, the parent left out |
| CompositionTables.FarmedAsExcept | gudpy/gui/widgets/tables/composition_table.py:298-313 | the first entry is the normalisation; the rest are all samples and containers in background-then-sample order, each sample before its containers, with the parent object left out |
| CompositionTables.SamplesEntriesAsExcept | gudpy/gui/widgets/tables/composition_table.py:305-313 | the nested loops over samples and containers filter one flat ordered list |
| CompositionTables.BackgroundsEntriesAsExcept | gudpy/gui/widgets/tables/composition_table.py:305-313 | the same across all sample backgrounds |
| ExportDialogs.Replace | gudpy/gui/widgets/dialogs/export_dialog.py:84-91 | Python's `str.replace`, the empty pattern included; its properties are ReplaceBySelf, ReplaceAbsent and ReplaceOneChar |
| ExportDialogs.MintFile | gudpy/gui/widgets/dialogs/export_dialog.py:84-90 | the mint name of a data file: the data-file type replaced by `mint01`; a data file without the type keeps its name |
| ExportDialogs.NamedAfterSample | gudpy/gui/widgets/dialogs/export_dialog.py:91-93 | the sample-derived name: ends in `.mint01` and holds no space and no forbidden character |
| ExportDialogs.EntryFor | gudpy/gui/widgets/dialogs/export_dialog.py:83-103 | the entry one sample adds: none without data files; one exactly when the sample has data files and the mint file or the renamed file exists; a renamed entry is clean |
| ExportDialogs.ExportList | gudpy/gui/widgets/dialogs/export_dialog.py:79-103 | the entries of the samples in sample order, never more than the samples; ExportListShape and ExportListComplete state which |
| ExportDialogs.ReplaceBySelf | gudpy/gui/widgets/dialogs/export_dialog.py:84-90 | replacing a pattern by itself changes nothing |
| ExportDialogs.ReplaceAbsent | gudpy/gui/widgets/dialogs/export_dialog.py:84-90 | a data file without the data-file type keeps its name |
| ExportDialogs.ReplaceOneChar | gudpy/gui/widgets/dialogs/export_dialog.py:91 | replacing one character maps it everywhere |
| ExportDialogs.Translate | gudpy/gui/widgets/dialogs/export_dialog.py:91-92 | deleting characters never lengthens the text |
| ExportDialogs.NamedAfterSampleClean | gudpy/gui/widgets/dialogs/export_dialog.py:91-93 | the sample-derived name is the name cleaned character by character, holds no space and no forbidden character, is no longer than the name, and ends in `.mint01` |
| ExportDialogs.ExportListShape | gudpy/gui/widgets/dialogs/export_dialog.py:79-103 | at most one entry per sample, and every entry is the entry of a sample with data files |
| ExportDialogs.ExportListComplete | gudpy/gui/widgets/dialogs/export_dialog.py:83-103 | every sample that has data files and whose mint file or renamed file exists is listed, under the renamed name when renaming and the mint file's name otherwise |
| ExportDialogs.DefaultEntriesAreMintFiles | gudpy/gui/widgets/dialogs/export_dialog.py:84-90 | with renaming off, every entry is the mint file of a sample's first data file |
| ExportDialogs.RenamedEntriesClean | gudpy/gui/widgets/dialogs/export_dialog.py:91-102 | with renaming on, every entry is a cleaned sample name ending in `.mint01` |
| ExportDialogs.RenameKeepsCount | gudpy/gui/widgets/dialogs/export_dialog.py:95-103 | renaming changes the names but not how many samples are listed |
| ExportDialogs.ExportDialog.constructor | gudpy/gui/widgets/dialogs/export_dialog.py:34-38 | a new dialog lists the files without renaming |
| ExportDialogs.ExportDialog.LoadFilesList | gudpy/gui/widgets/dialogs/export_dialog.py:78-103 | the list is cleared, then filled sample by sample with the entries of the export list; renaming is off by default |
| ExportDialogs.ExportDialog.ToggleRename | gudpy/gui/widgets/dialogs/export_dialog.py:105-106 | the same as loading with renaming exactly when the state is non-zero |

## Left out

- Parser implementation: `core/composition.py` and `core/mass_data.py` are not part of this model. The parser is modelled from its tests, and the mass table is an abstract parameter.
- Formula.Component.Parse: the text of the raised message is not modelled. The test's message assertions sit after the raising call inside the `with` block, so they never run; one of them even names `H_19` for the input `H[4]`. The raise carries the symbol, the mass number and the valid set instead.
- Formula.Component.Parse: what `elements` holds after a raise is not pinned down by the tests. The model leaves it unchanged.
- Formula: the isotope table only validates bracketed mass numbers. The `D` alias is accepted without looking hydrogen up. `D` with a bracket is refused as unscannable.
- Formula.FractionValue: abundances are exact reals, not Python floats.
- FormulaProperties.ParseWritten: written tokens carry canonical numerals, without leading zeros. Numerals with leading zeros (`[013]`, `H007`) are covered only by the contracts of ReadIsotope and ReadAbundance.
- FormulaExamples: the long test formulas (`H2ONaCl9D2OK`, `H1.0K1.0Ar33.0Au26.5`, `H[3]12.0C[13]6.5U[235]K[39]9.1`, `H[19]12.0C[99]6.5U[345]K[2]9.1`) are covered by the general lemmas and by the examples built from their parts.
- PurgeFiles.PurgeFile.ToString: the header and instrument lines (purge_file.py:274-299) depend on `spacify`, `numifyBool` and the `Instruments` enum, which are not part of this model. They are one string parameter, and the instrument fields they read are not collected.
- PurgeFiles.PurgeFile: `write_out`, the `headless` argument of `purge` and the body of `purge` after the three stores are left out. They are file writes, `os.chdir`, `subprocess.run` and `QProcess`.
- PurgeFiles.PurgeFile: the five `*DataFilesString` fields do not exist in Python until `__str__` first runs. The model starts them as `""`, which `__str__` overwrites anyway.
- PurgeFiles.PurgeFile.ToString: calling `__str__` twice gives the same text. Its postcondition fixes the result from the groups alone, not from the earlier accumulator values. Two calls cannot be compared inside one lemma, because a lemma cannot call a method.
- SampleBackgrounds.SampleBackground.ToString: `str(sample)`, `str(DataFiles)` and `convertToSample()` live in files outside this model. They are function parameters.
- SampleBackgrounds.SampleBackground.ToString: `len(self.dataFiles)` (sample_background.py:69,76) is taken to be the length of its `dataFiles` list.
- ExportDialogs.ExportDialog.LoadFilesList: `len(sample.dataFiles)` and `sample.dataFiles[0]` (export_dialog.py:83-85) are taken to be the length of, and the first entry of, its `dataFiles` list.
- SampleBackgrounds.SampleBackground: `yamlignore` (sample_background.py:35-38) is serialisation metadata and is left out.
- CompositionTables.CompositionModel.SetData: with EditRole, requires a valid row and column and a value of a kind the column takes: text for the symbol, a whole number for the mass number, a real or a whole number for the abundance. Python would store a value of any kind, and its symbol check would refuse a non-text value; the model does not cover those calls. The spin-box delegate's fallback (composition_table.py:203-204) passes the whole number 0, which the abundance column takes and stores as the amount 0.
- CompositionTables.CompositionModel.SetData: a whole number stored in the abundance column becomes the real of the same value, while Python keeps the int.
- CompositionTables.CompositionModel.InsertRow: the default row's abundance is the real 0.0, while Python appends the int 0; the abundance is real-valued throughout the model.
- CompositionTables.CompositionModel: rows are values (`seq<Element>`), so aliasing of one `Element` object between rows is not captured. The `dataChanged` and `beginInsertRows` signals are left out.
- CompositionTables.CompositionModel: `data` (composition_table.py:98-125) is left out. It is display normalisation driven by global configuration flags and float division.
- CompositionTables.CompositionTable.FarmCompositions: the walk up the widget hierarchy to the main window is replaced by the Gudrun file as a parameter.
- CompositionTables: delegates, editors, context menus, `copyFrom` and mouse handling are Qt code and are left out.
- CompositionTables.CompositionTable.MakeModel: the `CompositionModel` it builds from `data` and hands to `setModel` is not kept as a field; CompositionModel is modelled on its own.
- ExportDialogs.ExportDialog.LoadFilesList: `os.path.exists(os.path.join(dir, name))` is the parameter `fileExists(dir, name)`. The Qt list widget is a sequence of names.
- ExportDialogs.ExportDialog: `initComponents`, `export`, `exportAs` and `performExport` are UI code and the zip export, and are left out.
- ExportDialogs.MapChar and ExportDialogs.Translate state only their lengths. Their character-level meaning is given by ReplaceOneChar, TranslateMapped and NamedAfterSampleClean.
