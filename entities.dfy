/** The objects of a Gudrun input file that the purge file, the sample
    background, the composition table and the export dialog read. Samples and
    containers are compared by identity where they are compared at all, so
    they are classes; the fields the modelled code only reads are constants. */
module Entities {
  import opened Formula

  /** A list of data-file names and the label they are written under. */
  datatype DataFiles = DataFiles(dataFiles: seq<string>, name: string)

  /** The elements a sample, container or normalisation is made of. */
  datatype Composition = Composition(elements: seq<Element>)

  class Container {
    const name: string
    const dataFiles: DataFiles
    const periodNumber: int
    /** Whether the container is also written out as a sample of its own. */
    const runAsSample: bool
    const composition: Composition

    constructor (name: string, dataFiles: DataFiles, periodNumber: int, runAsSample: bool,
                 composition: Composition)
      ensures this.name == name && this.dataFiles == dataFiles && this.periodNumber == periodNumber
      ensures this.runAsSample == runAsSample && this.composition == composition
    {
      this.name := name;
      this.dataFiles := dataFiles;
      this.periodNumber := periodNumber;
      this.runAsSample := runAsSample;
      this.composition := composition;
    }
  }

  class Sample {
    const name: string
    const dataFiles: DataFiles
    const periodNumber: int
    /** Whether the sample takes part in the next run. */
    const runThisSample: bool
    const containers: seq<Container>
    const composition: Composition

    constructor (name: string, dataFiles: DataFiles, periodNumber: int, runThisSample: bool,
                 containers: seq<Container>, composition: Composition)
      ensures this.name == name && this.dataFiles == dataFiles && this.periodNumber == periodNumber
      ensures this.runThisSample == runThisSample && this.containers == containers
      ensures this.composition == composition
    {
      this.name := name;
      this.dataFiles := dataFiles;
      this.periodNumber := periodNumber;
      this.runThisSample := runThisSample;
      this.containers := containers;
      this.composition := composition;
    }
  }

  datatype Normalisation = Normalisation(
    dataFiles: DataFiles,
    dataFilesBg: DataFiles,
    periodNumber: int,
    periodNumberBg: int,
    composition: Composition)

  /** The two instrument settings the export dialog reads. */
  datatype Instrument = Instrument(dataFileType: string, gudrunInputFileDir: string)
}
