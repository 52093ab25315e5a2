/** The parts of a `GudrunFile` the purge file, the composition table and the
    export dialog read, and the walk over its sample backgrounds they share. */
module GudrunFiles {
  import opened Entities
  import opened SampleBackgrounds

  datatype GudrunFile = GudrunFile(
    instrument: Instrument,
    normalisation: Normalisation,
    sampleBackgrounds: seq<SampleBackground>)

  /** Every sample of every sample background, background by background. */
  function AllSamples(sbs: seq<SampleBackground>): seq<Sample>
    reads sbs
    decreases |sbs|
  {
    if sbs == [] then [] else AllSamples(sbs[..|sbs| - 1]) + sbs[|sbs| - 1].samples
  }

  /** The walk visits exactly the samples of the sample backgrounds. */
  lemma {:induction false} AllSamplesMembers(sbs: seq<SampleBackground>)
    ensures forall j, i | 0 <= j < |sbs| && 0 <= i < |sbs[j].samples| :: sbs[j].samples[i] in AllSamples(sbs)
    ensures forall k | 0 <= k < |AllSamples(sbs)| :: exists j | 0 <= j < |sbs| :: AllSamples(sbs)[k] in sbs[j].samples
    decreases |sbs|
  {
    if sbs == [] {
      assert AllSamples(sbs) == [];
    } else {
      var init := sbs[..|sbs| - 1];
      var last := sbs[|sbs| - 1];
      AllSamplesMembers(init);
      var r0, r := AllSamples(init), AllSamples(sbs);
      assert r == r0 + last.samples;
      forall j, i | 0 <= j < |sbs| && 0 <= i < |sbs[j].samples| ensures sbs[j].samples[i] in r {
        if j < |sbs| - 1 {
          assert init[j] == sbs[j];
          assert sbs[j].samples[i] in r0;
        } else {
          assert r[|r0| + i] == last.samples[i];
        }
      }
      forall k | 0 <= k < |r| ensures exists j | 0 <= j < |sbs| :: r[k] in sbs[j].samples {
        if k < |r0| {
          var j :| 0 <= j < |init| && r0[k] in init[j].samples;
          assert r[k] == r0[k] && init[j] == sbs[j];
          assert r[k] in sbs[j].samples;
        } else {
          assert r[k] == last.samples[k - |r0|];
          var j := |sbs| - 1;
          assert r[k] in sbs[j].samples;
        }
      }
    }
  }
}
