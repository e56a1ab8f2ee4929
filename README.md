# O2Physics analysis tasks: selection rules, counters and skimmed tables

This project models, in Dafny, the decision rules and histogram and table
bookkeeping of five pieces of the O2Physics analysis code.

- **EMCAL cluster data model** (`EmcalClusters`):
  - the six named clusterizer configurations;
  - the exact-match lookup `getClusterDefinitionFromString`, which throws `invalid_argument` for any other name;
  - the shared row schema of the matched and ambiguous cluster tables.
- **DPG event and track QA** (`QaEventTrack`):
  - the track selection `isSelectedTrack`;
  - the reconstructed-level fills of `processReco`: the event counters, the selected-track count, the kinematics, the flag-bit loop, the two ITS-layer loops, the MC pt resolution and the ITS/TPC matching fills;
  - the rows `processRecoTable` appends to the collision, track and particle tables;
  - the check in `init` that the two table-producing process functions are not both enabled.
- **TOF PID QA** (`QaPidTof`):
  - the ordered event and track cut chains, each filling one counter bin per stage reached;
  - the multiplicity loop;
  - the per-species `processSingleParticle`. It routes each track's n-sigma by charge sign and stops at the first track outside the rapidity window.
- **TPC spectra analyser** (`SpectraTpcAnalyser`): every track is counted as "Unselected", then once for each of the nine species whose TPC n-sigma lies within the cut.
- **Light-nuclei efficiency** (`NucleiSpectraEfficiencyLight`):
  - the generated-particle classification by primary flag, rapidity and PDG code;
  - the reconstructed-track gates: event sel8, ITS clusters, an open n-sigma window per species, the MC PDG code and the rapidity.

The histogram registry is modelled in `Histograms` as a map from histogram to
the sequence of entries filled into it, in fill order. A fill appends one
entry. Counts of entries, and counts at one coordinate (the content of a
counter bin), are what the properties speak about. Histogram names are
enumerated datatypes. Framework tables are sequences that the task classes
append to.

Each task whose process functions change its registry or tables is a `class`:

- `QaEventTrackTask`, `TofPidQa`, `TpcSpectraAnalyserTask`, `NucleiSpectraEfficiencyLightGen` and `NucleiSpectraEfficiencyLightRec`.
- Their methods follow the source's loops and branches.
- Each method's postcondition ties the new state to a specification function of the old state and the inputs.
- The lemmas beside each class prove what those functions promise: counts, routing, round trips, "nothing else changes" and the non-increasing counter bins.

Values that foreign code computes are fields of the input records:

- the pt resolution `pt * sqrt(c1Pt21Pt2)`;
- the `TMath::Exp` correction of the helium-3 n-sigma;
- `TLorentzVector` rapidities;
- the TOF n-sigma, expected-signal difference and expected sigma.

Floating-point numbers are modelled as `real`.

## Model

| member | source | states |
|---|---|---|
| EmcalClusters.GetClusterDefinitionFromString | PWGJE/DataModel/EMCALClusters.h:40-57 | the lookup succeeds iff the name is one of the six declared names, returns a declared definition carrying exactly that name, and otherwise fails with the invalid-argument error "Cluster definition name not recognized" |
| EmcalClusters.LookupRoundTrip | PWGJE/DataModel/EMCALClusters.h:42-53 | looking up any declared definition's own name returns that very definition |
| EmcalClusters.LookupRejectsStrictPrefix | PWGJE/DataModel/EMCALClusters.h:42-56 | every strict prefix of a known name (the empty string included) is rejected: there is no partial match |
| EmcalClusters.LookupRejectsExtension | PWGJE/DataModel/EMCALClusters.h:42-56 | a known name followed by any non-empty suffix is rejected |
| EmcalClusters.KnownNamesDifferIgnoringCase | PWGJE/DataModel/EMCALClusters.h:42-56 | no two of the six known names are equal up to ASCII letter case |
| EmcalClusters.LookupIsCaseSensitive | PWGJE/DataModel/EMCALClusters.h:42-56 | every string of the same length as a known name that differs from it, but only in ASCII letter case, is rejected with the not-recognized error |
| EmcalClusters.LookupCaseExamples | PWGJE/DataModel/EMCALClusters.h:42-56 | three concrete case variants ("kv1default", "KV3DEFAULT", "kV3variation2") are rejected |
| EmcalClusters.IdDeterminesDefinition | PWGJE/DataModel/EMCALClusters.h:30-35 | two declared definitions have the same numeric id (0, 1, 2, 10, 11, 12) iff they are the same definition |
| EmcalClusters.OnlyV1DefaultIsV1 | PWGJE/DataModel/EMCALClusters.h:28-35 | a declared definition carries the V1 algorithm tag iff it is kV1Default; the two kV1 variations carry V3 |
| EmcalClusters.SharedParameters | PWGJE/DataModel/EMCALClusters.h:30-35 | all six definitions share the third argument 1 and the last three arguments -10000, 10000, 0.03 |
| EmcalClusters.TablesDifferOnlyInAssociationColumn | PWGJE/DataModel/EMCALClusters.h:77-87 | both tables have 15 columns, equal at every position except position 1, which is CollisionId in the matched table and BCId in the ambiguous one |
| EmcalClusters.CollisionRef | PWGJE/DataModel/EMCALClusters.h:59-59 | a row has a collision reference iff it belongs to the matched table, and the reference is its index column |
| EmcalClusters.BunchCrossingRef | PWGJE/DataModel/EMCALClusters.h:60-60 | a row has a bunch-crossing reference iff it belongs to the ambiguous table, and the reference is its index column |
| EmcalClusters.ExactlyOneReference | PWGJE/DataModel/EMCALClusters.h:76-87 | every row carries exactly one of the two references |
| QaEventTrack.ChargeSelection | DPG/Tasks/qaEventTrack.cxx:493-495 | a nonzero selectCharge rejects every track of another sign; with selectCharge 0 the decision does not depend on the sign |
| QaEventTrack.DataSelectsOnChargeOnly | DPG/Tasks/qaEventTrack.cxx:490-517 | on data a track is selected iff it passes the charge requirement |
| QaEventTrack.NoParticleSelection | DPG/Tasks/qaEventTrack.cxx:496-503 | in MC a track without a particle is selected iff it passes the charge requirement and none of selectPrim, selectSec, selectPID is set |
| QaEventTrack.PrimaryAndSecondaryExclusive | DPG/Tasks/qaEventTrack.cxx:505-511 | requiring both primaries and secondaries rejects every track that has a particle |
| QaEventTrack.PidSelection | DPG/Tasks/qaEventTrack.cxx:512-514 | with a nonzero selectPID a selected track's particle has that absolute PDG code, and a matching code with all other requirements met selects the track |
| QaEventTrack.SelectedMembers | DPG/Tasks/qaEventTrack.cxx:578-581 | a track is among the selected tracks iff it is one of the tracks and passes isSelectedTrack |
| QaEventTrack.CountSelectedTracks | DPG/Tasks/qaEventTrack.cxx:534-540 | the counting loop returns the number of tracks that pass isSelectedTrack |
| QaEventTrack.SetBitsBelowSpec | DPG/Tasks/qaEventTrack.cxx:597-601 | the listed positions below k are exactly the set bits of the mask below k, in strictly increasing order |
| QaEventTrack.ItsHitsShape | DPG/Tasks/qaEventTrack.cxx:611-626 | itsHits gains one entry per ITS layer hit; each entry is at (layer, number of layers hit) and such an entry exists iff that layer's bit is set; exactly one entry (-1, 0) is added when no layer is hit |
| QaEventTrack.QaEventTrackTask.CountItsHits | DPG/Tasks/qaEventTrack.cxx:611-616 | itsNhits is the number of set bits among bits 0..6 of itsClusterMap |
| QaEventTrack.QaEventTrackTask.FillItsLayers | DPG/Tasks/qaEventTrack.cxx:617-623 | the second ITS loop fills one (layer, itsNhits) entry per layer hit, in layer order; trkHasITS is true iff some layer is hit |
| QaEventTrack.QaEventTrackTask.FillItsHits | DPG/Tasks/qaEventTrack.cxx:611-626 | the ITS part of the loop body adds exactly the entries ItsHitsShape describes and changes no table |
| QaEventTrack.QaEventTrackTask.FillFlags | DPG/Tasks/qaEventTrack.cxx:597-601 | the flag loop fills one entry at each set bit of the flags, in increasing order, and changes no table |
| QaEventTrack.QaEventTrackTask.FillKinematics | DPG/Tasks/qaEventTrack.cxx:583-585 | the new registry is the old one with the pt, eta and phi fills of the track |
| QaEventTrack.QaEventTrackTask.FillClusters | DPG/Tasks/qaEventTrack.cxx:597-626 | the new registry is the old one with the flag-bit, itsNCls and ITS-layer fills |
| QaEventTrack.QaEventTrackTask.FillMatching | DPG/Tasks/qaEventTrack.cxx:637-656 | the new registry is the old one with the MC pt resolution fill (MC with a particle only) and the hasITS, hasTPC and hasITS-and-hasTPC fills, each under its condition |
| QaEventTrack.QaEventTrackTask.FillSelectedTrack | DPG/Tasks/qaEventTrack.cxx:582-656 | the loop body for a selected track produces exactly the fills of SelectedTrackFills |
| QaEventTrack.SelectedTrackAdds | DPG/Tasks/qaEventTrack.cxx:582-656 | every histogram gains exactly what the selected track adds to it, in fill order, and all other histograms are unchanged |
| QaEventTrack.TrackAddedParts | DPG/Tasks/qaEventTrack.cxx:582-656 | each histogram is filled by exactly one of the three parts of the loop body |
| QaEventTrack.TrackAddedShape | DPG/Tasks/qaEventTrack.cxx:583-656 | one selected track adds one pt entry, one flags entry per set bit, its ITS-layer entries, a hasITS entry iff it has ITS, a hasITS-and-hasTPC entry iff it has both, and nothing to the event histograms |
| QaEventTrack.QaEventTrackTask.FillSelectedEvent | DPG/Tasks/qaEventTrack.cxx:532-575 | a selected event fills bin 2 of the event counter, posZ, nContrib versus nTracks, nTracks, and the track counter with the table size and the filtered size as weights |
| QaEventTrack.SelectedEventFillsEffect | DPG/Tasks/qaEventTrack.cxx:532-575 | those event fills add exactly their entries to each histogram and nothing to the others |
| QaEventTrack.QaEventTrackTask.FillTracks | DPG/Tasks/qaEventTrack.cxx:578-657 | the track loop fills the body's entries for each selected track, in track order, and nothing for the others |
| QaEventTrack.TrackLoopAdds | DPG/Tasks/qaEventTrack.cxx:578-657 | over the track loop each histogram gains the additions of the selected tracks, in order, and nothing else |
| QaEventTrack.LoopAddedCounts | DPG/Tasks/qaEventTrack.cxx:578-657 | the loop adds one pt entry per selected track, never more hasITS-and-hasTPC entries than hasITS entries, and nothing to the event histograms |
| QaEventTrack.QaEventTrackTask.ProcessReco | DPG/Tasks/qaEventTrack.cxx:524-658 | processReco fills bin 1 of the event counter, stops there for a rejected event, and otherwise makes the event fills and the track loop; the tables are unchanged |
| QaEventTrack.RecoFillsAdds | DPG/Tasks/qaEventTrack.cxx:524-658 | processReco adds to each histogram exactly the bin-1 entry, the event entries and the track-loop entries, in fill order |
| QaEventTrack.RecoAddedCounts | DPG/Tasks/qaEventTrack.cxx:528-562 | a selected event fills bins 1 and 2 of the event counter and records nTracks, which equals the number of pt entries of the loop; a rejected event fills only bin 1 of the event counter and nothing else |
| QaEventTrack.CollisionRowFlag | DPG/Tasks/qaEventTrack.cxx:672-674 | the isEventReject column holds 1 iff the event-selection bit is set, so with selectGoodEvents every row written holds 1 |
| QaEventTrack.ProductionMode | DPG/Tasks/qaEventTrack.cxx:707-713 | mode 0 iff the particle is a physical primary, 1 iff it is not and its process is 4, 2 iff it is not and its process is another one |
| QaEventTrack.ParticleRowMode | DPG/Tasks/qaEventTrack.cxx:704-717 | mode -1 marks exactly the rows of tracks without a particle, which carry PDG code 0 and the track's own kinematics; other rows carry mode 0, 1 or 2 |
| QaEventTrack.RowsFollowSelected | DPG/Tasks/qaEventTrack.cxx:689-718 | the appended track rows and particle rows both number the selected tracks, row k of each describes the k-th selected track, and every track row points at the given collision row |
| QaEventTrack.QaEventTrackTask.ProcessRecoTable | DPG/Tasks/qaEventTrack.cxx:666-720 | a rejected event appends no rows; a selected event appends one collision row, then one track row per selected track pointing at it, and in MC one particle row per track row; the histograms are unchanged |
| QaEventTrack.QaEventTrackTask.AppendTrackRows | DPG/Tasks/qaEventTrack.cxx:689-719 | the loop appends the track rows of the selected tracks and, in MC, their particle rows, and changes nothing else |
| QaEventTrack.QaEventTrackTask.AppendParticleRow | DPG/Tasks/qaEventTrack.cxx:704-718 | one particle row is appended: the particle's kinematics, PDG code and production mode, or the track's kinematics with code 0 and mode -1 |
| QaEventTrack.CheckProcessSwitches | DPG/Tasks/qaEventTrack.cxx:386-388 | init fails iff processTableData and processTableMC are both enabled |
| QaEventTrack.QaEventTrackTask.constructor | DPG/Tasks/qaEventTrack.cxx:384-388 | the task can only be set up when at most one table-producing process function is enabled; it starts with empty histograms and tables |
| QaPidTof.TriggerRequirement | DPG/Tasks/qaPIDTOF.h:185-193 | with applyEvSel 1 the event needs sel7, with 2 it needs sel8, and any other value imposes no trigger requirement |
| QaPidTof.VertexCutRejects | DPG/Tasks/qaPIDTOF.h:215-217 | an event with abs(posZ) > 10 is rejected whatever its trigger bits |
| QaPidTof.CountMultiplicities | DPG/Tasks/qaPIDTOF.h:199-212 | the loop counts the tracks passing the optional global-track cut and, among those, the tracks with TOF, and the TOF multiplicity never exceeds the track multiplicity |
| QaPidTof.TofPidQa.IsEventSelected | DPG/Tasks/qaPIDTOF.h:178-229 | the decision is trigger and vertex cut, and with histograms enabled the event fills are made stage by stage; without histograms the registry is unchanged |
| QaPidTof.EventFillsBins | DPG/Tasks/qaPIDTOF.h:178-229 | one event fills bins 1..n of event/evsel, where n is 1 if the trigger fails, 3 if the vertex cut fails and 4 otherwise; bin 4 is filled iff the event is selected |
| QaPidTof.TrackSelectedIff | DPG/Tasks/qaPIDTOF.h:237-257 | a track is selected iff it is a global track with ITS, TPC and TOF |
| QaPidTof.TofPidQa.IsTrackSelected | DPG/Tasks/qaPIDTOF.h:231-272 | the decision is the four checks in order, and with histograms enabled one counter bin per check passed plus the QA fills of a selected track |
| QaPidTof.TrackFillsBins | DPG/Tasks/qaPIDTOF.h:234-259 | one track fills bins 1..n of event/trackselection, where n - 1 is the number of leading checks passed, and leaves event/evsel unchanged |
| QaPidTof.SelectedTrackFillsKeepsCounters | DPG/Tasks/qaPIDTOF.h:258-270 | the QA fills of a selected track change neither counter histogram |
| QaPidTof.CountAtBinsUpTo | DPG/Tasks/qaPIDTOF.h:234-259 | the stages of one event or track add one entry to each bin 1..n and none to any other bin |
| QaPidTof.AppendBinsKeepsNonIncreasing | DPG/Tasks/qaPIDTOF.h:234-259 | adding the stages of one event or track keeps the counter non-increasing from each bin to the next |
| QaPidTof.TrackLoopKeepsNonIncreasing | DPG/Tasks/qaPIDTOF.h:279-281 | the track loop of process keeps event/trackselection non-increasing over bins 1..5 and leaves event/evsel unchanged |
| QaPidTof.TofPidQa.Process | DPG/Tasks/qaPIDTOF.h:275-282 | process makes the event fills and then every track's fills, whatever the event decision, and keeps both counters non-increasing bin to bin |
| QaPidTof.TofPidQa.FillNSigma | DPG/Tasks/qaPIDTOF.h:304-318 | a track that passed every cut fills n-sigma versus p and versus pt, the positive or the negative sign histogram, and the three full histograms when they are requested |
| QaPidTof.NSigmaFillsRouting | DPG/Tasks/qaPIDTOF.h:305-311 | each filled track adds exactly one entry to n-sigma versus pt and exactly one to the positive (sign > 0) or the negative (sign <= 0) histogram |
| QaPidTof.SignRoutingPartitions | DPG/Tasks/qaPIDTOF.h:293-319 | over the loop the two sign histograms together gain exactly as many entries as n-sigma versus pt |
| QaPidTof.RapidityCutStopsLoop | DPG/Tasks/qaPIDTOF.h:298-302 | with the rapidity cut, the first selected track with abs(y) > 0.5 ends the loop: the tracks after it contribute nothing |
| QaPidTof.NoRapidityCutFillsEverySelected | DPG/Tasks/qaPIDTOF.h:293-306 | without the rapidity cut, n-sigma versus p gains exactly one entry per selected track |
| QaPidTof.NSigmaFillsOnlySpecies | DPG/Tasks/qaPIDTOF.h:304-318 | the fills of one track leave every histogram outside the seven of its species unchanged |
| QaPidTof.SingleParticleLoopOnlySpecies | DPG/Tasks/qaPIDTOF.h:293-319 | the track loop of processSingleParticle leaves every histogram outside the seven of its species unchanged, event/trackselection included, since isTrackSelected runs without histograms |
| QaPidTof.SingleParticleFillsOnlySpecies | DPG/Tasks/qaPIDTOF.h:284-320 | processSingleParticle as a whole, event selection without histograms included, leaves every histogram outside its species unchanged, event/evsel included |
| QaPidTof.TofPidQa.ProcessSingleParticle | DPG/Tasks/qaPIDTOF.h:284-320 | nothing is filled for a rejected event; otherwise the selected tracks are filled in order up to the first one the rapidity cut stops; the counters stay non-increasing bin to bin |
| SpectraTpcAnalyser.NameTables | Tutorials/Skimming/spectraTPCAnalyser.cxx:34-39 | the species label table and both name tables have exactly Np = 9 entries, and distinct histograms have distinct names |
| SpectraTpcAnalyser.NSigmas | Tutorials/Skimming/spectraTPCAnalyser.cxx:71-73 | the n-sigma array has Np entries, and entry i is the n-sigma of species i: electron, muon, pion, kaon, proton, deuteron, triton, helium-3, alpha |
| SpectraTpcAnalyser.TpcSpectraAnalyserTask.FillParticleHistos | Tutorials/Skimming/spectraTPCAnalyser.cxx:56-64 | species s fills its p and pt histograms unless abs(nsigma[s]) exceeds the cut |
| SpectraTpcAnalyser.FillSpeciesBelowEffect | Tutorials/Skimming/spectraTPCAnalyser.cxx:77-85 | the species checks 0..n-1 add to species s's p and pt histograms one entry each iff s < n and s accepts the track, and nothing to any other histogram |
| SpectraTpcAnalyser.TpcSpectraAnalyserTask.Process | Tutorials/Skimming/spectraTPCAnalyser.cxx:69-86 | process fills both "Unselected" histograms, then runs the nine species checks in order |
| SpectraTpcAnalyser.ProcessTrackEffect | Tutorials/Skimming/spectraTPCAnalyser.cxx:69-86 | one track adds one entry to each "Unselected" histogram, and one entry each to species s's p and pt histograms iff abs(nsigma[s]) <= cut |
| SpectraTpcAnalyser.BoundaryAccepted | Tutorials/Skimming/spectraTPCAnalyser.cxx:59-61 | an n-sigma exactly at +cut or -cut is accepted |
| SpectraTpcAnalyser.TrackCountedForEverySpecies | Tutorials/Skimming/spectraTPCAnalyser.cxx:77-85 | the nine checks are independent: a track within the cut for every species is counted once for each of them |
| SpectraTpcAnalyser.ProcessTracksCounts | Tutorials/Skimming/spectraTPCAnalyser.cxx:69-86 | over a run of tracks each "Unselected" histogram gains one entry per track, and species s's p and pt histograms each gain one entry per track it accepts, so they are filled together |
| NucleiSpectraEfficiencyLight.NucleiSpectraEfficiencyLightGen.Process | PWGLF/Tasks/NucleiSpectraEfficiencyLight.cxx:72-95 | the generated-particle loop makes the fills of GenFill for each particle, in order |
| NucleiSpectraEfficiencyLight.GenFillEffect | PWGLF/Tasks/NucleiSpectraEfficiencyLight.cxx:77-94 | a generated particle adds its pt to the histogram GenClass names and to no other; GenClass is none for a non-primary or abs(y) > 0.5 and is otherwise decided by the PDG code 211, -2212 or -1000020030 |
| NucleiSpectraEfficiencyLight.GenFillsCount | PWGLF/Tasks/NucleiSpectraEfficiencyLight.cxx:77-94 | over the loop each histogram gains one entry per particle classified into it |
| NucleiSpectraEfficiencyLight.GenSkipsUnselected | PWGLF/Tasks/NucleiSpectraEfficiencyLight.cxx:78-83 | a non-primary or a particle with abs(y) > 0.5 fills nothing |
| NucleiSpectraEfficiencyLight.GenAtMostOneHistogram | PWGLF/Tasks/NucleiSpectraEfficiencyLight.cxx:85-93 | the three histograms together gain at most one entry per particle |
| NucleiSpectraEfficiencyLight.NucleiSpectraEfficiencyLightRec.Process | PWGLF/Tasks/NucleiSpectraEfficiencyLight.cxx:134-235 | the "all" bin is filled; an event failing sel8 stops there; otherwise the sel8 bin and the vertex are filled and then each track's fills, in order |
| NucleiSpectraEfficiencyLight.NucleiSpectraEfficiencyLightRec.ProcessTrack | PWGLF/Tasks/NucleiSpectraEfficiencyLight.cxx:153-234 | a track without ITS clusters changes nothing; any other track makes the QA fills and then the species checks |
| NucleiSpectraEfficiencyLight.NucleiSpectraEfficiencyLightRec.FillTrackQa | PWGLF/Tasks/NucleiSpectraEfficiencyLight.cxx:163-178 | the QA fills: dE/dx versus signed rigidity, the three n-sigma values (helium-3 with its shift) versus rigidity, the ITS cluster count |
| NucleiSpectraEfficiencyLight.NucleiSpectraEfficiencyLightRec.FillTrackSpecies | PWGLF/Tasks/NucleiSpectraEfficiencyLight.cxx:197-233 | the pion, antiproton and antihelium-3 checks in order, each with its open n-sigma window, PDG code, primary flag (not for helium-3) and rapidity window |
| NucleiSpectraEfficiencyLight.RecQaFillEffect | PWGLF/Tasks/NucleiSpectraEfficiencyLight.cxx:170-178 | the QA fills add one entry to each QA histogram and touch no other histogram |
| NucleiSpectraEfficiencyLight.RecSpeciesFillEffect | PWGLF/Tasks/NucleiSpectraEfficiencyLight.cxx:197-233 | the species checks add exactly the entry RecClass names: at most one species, since the PDG codes exclude each other; helium-3 at twice the track pt |
| NucleiSpectraEfficiencyLight.RecTrackFillEffect | PWGLF/Tasks/NucleiSpectraEfficiencyLight.cxx:153-234 | one track adds the RecClass entry to the species histograms and one entry to each QA histogram when it has ITS clusters; the event histograms are untouched and a track without ITS clusters changes nothing |
| NucleiSpectraEfficiencyLight.RecTrackFillsCount | PWGLF/Tasks/NucleiSpectraEfficiencyLight.cxx:153-234 | over the loop each species histogram gains one entry per track classified into it, and the ITS-cluster histogram one entry per track with ITS clusters |
| NucleiSpectraEfficiencyLight.ClassifiedHaveIts | PWGLF/Tasks/NucleiSpectraEfficiencyLight.cxx:157-159 | every track counted for a species has ITS clusters, so a species count never exceeds the ITS-cluster count |
| NucleiSpectraEfficiencyLight.RecSkipsTracksWithoutIts | PWGLF/Tasks/NucleiSpectraEfficiencyLight.cxx:157-159 | a track with no ITS cluster can be dropped from the loop without changing any histogram |
| NucleiSpectraEfficiencyLight.RejectedEventOnlyCountsAll | PWGLF/Tasks/NucleiSpectraEfficiencyLight.cxx:140-145 | an event failing sel8 fills only the "all" bin |
| NucleiSpectraEfficiencyLight.WindowEdgesExcluded | PWGLF/Tasks/NucleiSpectraEfficiencyLight.cxx:197-223 | the n-sigma window is open, species by species: a pion n-sigma equal to either edge means the track is not counted as a pion, and likewise for the proton and the shifted helium-3 n-sigma |

## Left out

- Histogram booking in `init`, binning, axis ranges, bin labels and `Form` titles are not modelled. A fill is an appended entry. The labelled bins "all" and "sel8" of histEvSel are the entries 0 and 1.
- Framework plumbing is not modelled: table storage, `Filter` expressions, `Join`/`Filtered`, `Produces`, `PROCESS_SWITCH` and the workflow definitions.
  - Inputs are the already filtered rows.
  - The size of the unfiltered track table in processReco is the parameter `tableSize`.
  - processData/processMC and processTableData/processTableMC are the `isMC` parameter.
  - The tofPidQa process wrappers are the species and full-histogram parameters.
- Numerics that foreign code computes are given inputs:
  - `sqrt(c1Pt21Pt2)`;
  - the `TMath::Exp` helium-3 n-sigma shift;
  - the `TLorentzVector` rapidities;
  - `tofNSigma`, `tofExpSignalDiff` and `tofExpSigma`.
- Float precision, and `abs` applied to floats, are modelled as exact real arithmetic.
- QaEventTrack.QaEventTrackTask.FillFlags: the source loops over bits 0..63 of a 64-bit flags word with `1 << i` on an `int`. From bit 32 on the result is undefined behaviour in C++. The model keeps the 32 bits 0..31 and leaves the rest out.
- The processReco fills that only copy a column into a histogram are not modelled:
  - posX, posY and posXY;
  - the vertex position versus contributors;
  - nContrib and the vertex chi2;
  - the covariance elements;
  - the MC vertex resolution;
  - relativeResoPt, the track parameters, the DCA and the length;
  - itsChi2NCl and the TPC variables;
  - resoEta and resoPhi.

  The modelled fills are the counters, the selected-track count, pt, eta, phi, the flag bits, itsNCls, the ITS layers, resoPt and the matching fills. Unmodelled fills touch only their own histograms.
- The counting loop and the `reserve` calls in processRecoTable only size the tables in advance and are not modelled.
- `LOGF(fatal, ...)` in init ends the process. It is modelled as the constructor's precondition, and as the `Fail` outcome of `CheckProcessSwitches`.
- The qaEventTrack MC-level processing and the histogram bookkeeping of init are not modelled. Neither is the vertex task `NucleiSpectraEfficiencyLightVtx`, whose only action is a single fill.
- NucleiSpectraEfficiencyLight.NucleiSpectraEfficiencyLightRec.ProcessTrack: the source reads the track's MC particle (PDG code, physical-primary flag) without checking `has_mcParticle` (NucleiSpectraEfficiencyLight.cxx lines 199, 212 and 225). The model gives every reconstructed track a label. What the source reads for an unlabelled track whose n-sigma lies in the window is not captured.
- `EMCALClusterDefinition.h` is not part of this model. The field names of `ClusterDefinition` are descriptive names for the constructor's positional arguments.
- Common/DataModel/Centrality.h declares columns only and is not modelled.
