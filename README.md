# SKSNSim event-vector core in Dafny

This project models the discrete bookkeeping of SKSNSim's supernova-burst
event-vector generator. SKSNSim is the Super-Kamiokande supernova
simulation. The model covers:

- the single-integer reaction identifier that `Process` packs and that
  `determineKinematics` and `FillEvent` unpack (`ReactionId`);
- the particle-bank template `determineKinematics` writes for each
  reaction, the direction rotation `convDirection`, the envelope scan of
  `determineAngleNuebarP` and the rejection loops of the angle samplers,
  bounded by the proposals supplied (`Kinematics`);
- `MakeEvent`, `determinePosition`, and the FillEvent loop with its skip
  flag, output-file rotation and reaction tally (`EventGen`, class
  `Generator`);
- the per-cell booking loops of `Process` with their energy gates and the
  inverse-beta cross-section gate (`Booking`);
- the output-file plans of `SKSNSimFileIO.cc`: fixed-size chunks of the
  requested event total or one file per live subrun (`FileIO`); the file
  plans include the file names, the run-period lookups, the filtering in
  `ReadTimeEventFile` and its stochastic rounding of event counts.

Pure code is written as datatypes, functions and lemmas. Code that
updates state is written as methods:

- the `McInfo` and `Generator` classes;
- the loops of `convDirection`, of the envelope scan and of the booking;
- the push-back loops of the file plans;
- the in-place erase loop of `ReadTimeEventFile`.

Each method is proved against a specification function, and the
properties are proved about those functions.

The files:

- `util.dfy`: `Option`, and C++ truncation of a double to int and C++
  integer `/` and `%`.
- `reaction_id.dfy`: encoders, decoders, round trips, injectivity and
  range separation.
- `kinematics.dfy`: final-state templates and samplers.
- `eventgen.dfy`: event records, positions, the tally and the generator
  class.
- `booking.dfy`: the booking order of one (time, energy) cell.
- `fileio.dfy`: output-file lists, run periods, live-time filtering and
  rounding.

The random generator, the physics providers and the detector constants
are inputs:

- Poisson counts and uniform draws are parameters, and isotropic unit
  vectors are a function `nat -> Vec3`.
- Fluxes and cross sections are parameters, and so are the lookup tables
  `numNtNueO`, `numNtNuebarO` and `eneGamN`.
- Masses, detector dimensions, `neutrinoType[]`, the `SK_*` run-period
  constants and `flag_event` are parameters.
- `sqrt`, `sin`, `cos` and `acos` are uninterpreted functions in
  `Physics`.
- The contents of the live-time files are a function from the path to
  the records it holds.

Two behaviours of the code are modelled as written:

- The charged-current decoder truncates double quotients, so ids outside
  the encoded digit groups alias (`ReactionId.CCDecodeAliases`).
- `ReadTimeEventFile` keeps only the records of the last kept run
  period, because every load clears the buffer (see Findings). The live-time
  file plan (`RuntimeOf`, `ReadTimeEvents`, `RuntimeList`, and the
  methods built on them) is the one the code produces. The appending
  loader is modelled beside it under its own names
  (`ReadTimeEventFileIntended`, `RuntimeOfIntended`).

## Model

| member | source | states |
|---|---|---|
| ReactionId.Decode | src/VectGenGenerator.cc:184-373 | the id ranges select disjoint branches: 0 is inverse beta, 1..4 elastic with that flavour, (1000, 10000) neutral current, >= 10000 charged current, and every other id is unrecognised |
| ReactionId.EncodeCC | src/VectGenGenerator.cc:1026 | an enumerated charged-current field tuple encodes to an id in 110011..250167, above the neutral-current range |
| ReactionId.EncodeSub | src/VectGenGenerator.cc:1186 | an enumerated sub-reaction level encodes to an id in 110309..250309 |
| ReactionId.EncodeNC | src/VectGenGenerator.cc:1269 | an enumerated neutral-current field tuple encodes to an id in 3111..3424, inside (1000, 10000) |
| ReactionId.DecodeCC | src/VectGenGenerator.cc:376-381 | the charged-current decoder yields a charged-current channel with a non-negative reaction and a channel digit in -1..8 |
| ReactionId.DecodeNC | src/VectGenGenerator.cc:287-292 | the neutral-current decoder yields a neutral-current channel whose three fields are each one decimal digit minus one |
| ReactionId.DecodeCCPrefixes | src/VectGenGenerator.cc:376-381 | for ids >= 100000 the truncated double quotients by 10e4 and 10e3 are the integer quotients |
| ReactionId.DecodeCCDigits | src/VectGenGenerator.cc:376-381 | where the state and excitation digit groups are non-zero, the charged-current decoder reads the decimal digit groups of the id |
| ReactionId.CCRoundTrip | src/VectGenGenerator.cc:1015-1172 | every enumerated charged-current id is >= 10000 and decodes to (rcn, ex_energy, ex_state, ch) |
| ReactionId.SubRoundTrip | src/VectGenGenerator.cc:1176-1207 | every sub-reaction id is >= 10000 and decodes to excitation level 29 and channel 8, whatever sub-channel was booked |
| ReactionId.OrdinaryIsNotSub | src/VectGenGenerator.cc:386-392 | no ordinary charged-current id decodes to excitation level 29 or channel 8 |
| ReactionId.NCRoundTrip | src/VectGenGenerator.cc:1269-1316 | every enumerated neutral-current id lies strictly in (1000, 10000) and decodes to (species, nucleon, level) |
| ReactionId.EncodersInjective | src/VectGenGenerator.cc:1026-1165 | distinct charged-current field tuples get distinct ids |
| ReactionId.NCInjective | src/VectGenGenerator.cc:1269-1314 | distinct neutral-current field tuples get distinct ids |
| ReactionId.FamiliesDisjoint | src/VectGenGenerator.cc:973-1316 | charged-current, sub-reaction and neutral-current ids never coincide, and none of them is 0..4 |
| ReactionId.CCDecodeThenEncode | src/VectGenGenerator.cc:376-381 | a charged-current id with enumerated decoded fields and non-zero digit groups is the encoding of its decoded fields |
| ReactionId.CCDecodeAliases | src/VectGenGenerator.cc:376-381 | outside those digit groups the decoder aliases: 100081 decodes like 110081 |
| ReactionId.NCDecodeThenEncode | src/VectGenGenerator.cc:287-292 | the neutral-current decoder ignores the thousands digit: an id decodes like 3000 + id % 1000 |
| ReactionId.NumExStates | src/VectGenGenerator.cc:1015-1020 | each nuclear state enumerates between 1 and 16 excitation levels |
| Kinematics.OrigVec | src/VectGenGenerator.cc:25-36 | the local direction is a three-element vector |
| Kinematics.ConvDirection | src/VectGenGenerator.cc:25-44 | the double accumulation loop computes the rotation matrix times the local direction |
| Kinematics.AccumulateRow | src/VectGenGenerator.cc:38-40 | the inner loop leaves row i times the local direction in eDir[i] and no other entry changed |
| Kinematics.RotateIdentity | src/VectGenGenerator.cc:25-44 | the identity rotation leaves a direction unchanged |
| Kinematics.FinalState | src/VectGenGenerator.cc:181-519 | definition of `determineKinematics` by the decoded id; what it writes is stated by the template lemmas below |
| Kinematics.IbdState | src/VectGenGenerator.cc:184-242 | definition of the inverse-beta branch; its contract is `IbdTemplate` |
| Kinematics.ElasticState | src/VectGenGenerator.cc:243-284 | definition of the elastic branch; its contract is `ElasticTemplate` and `SkipOnlyElastic` |
| Kinematics.NCState | src/VectGenGenerator.cc:285-372 | definition of the neutral-current branch; its contract is `NCTemplate` |
| Kinematics.CCState | src/VectGenGenerator.cc:373-508 | definition of the charged-current branch; its contract is `CCTemplate`, `CCSubTemplate` and `CCSecondariesShape` |
| Kinematics.IbdTemplate | src/VectGenGenerator.cc:184-242 | four particles -12, 2212, -11, 2112; proton at rest with energy Mp; neutron momentum = neutrino minus positron componentwise, and its energy is on-shell; initial particles not final and dark, products final and visible |
| Kinematics.ElasticTemplate | src/VectGenGenerator.cc:243-284 | two particles, the flavour code of ids 1..4 and an electron, and the skip flag is raised iff abs(costTh) > 1 |
| Kinematics.SkipOnlyElastic | src/VectGenGenerator.cc:102-110 | only an elastic id with an unphysical threshold cosine raises the skip flag |
| Kinematics.NCTemplate | src/VectGenGenerator.cc:285-372 | three particles: the incident neutrino of the species code; a proton of energy Mp + 0.5 with an unscaled unit momentum, or a neutron of energy Mn + 0.5; then a gamma of energy eneGamN[level] with momentum direction x energy; the secondaries have origin flag 1 |
| Kinematics.CCSubTemplate | src/VectGenGenerator.cc:386-392 | the sub-reaction writes exactly the neutrino and the charged lepton of its flavour |
| Kinematics.CCTemplate | src/VectGenGenerator.cc:373-508 | neutrino and lepton, then, under the table guard, numNtNueO[ch] neutrons, numNtNuebarO[ch] neutrons (ch != 0) or one 12.674 MeV gamma (nuebar, ch 0), all with origin flag 0 |
| Kinematics.CCSecondariesShape | src/VectGenGenerator.cc:430-500 | the secondaries alone: their count, flags and content |
| Kinematics.UnrecognizedWritesNothing | src/VectGenGenerator.cc:181-519 | an id outside the four ranges writes no particle and no skip |
| Kinematics.UniformDrawBounds | src/VectGenGenerator.cc:62-66 | a uniform draw in [0, 1] maps into [lo, hi] |
| Kinematics.EnvelopeMax | src/VectGenGenerator.cc:54-60 | the scanned envelope is >= 0, bounds the density at every grid cosine, and is 0 or attained at a grid point |
| Kinematics.EnvelopeIsMax | src/VectGenGenerator.cc:54-60 | those three properties determine the envelope uniquely |
| Kinematics.EnvelopeOfIsMax | src/VectGenGenerator.cc:54-60 | the envelope function has the three properties |
| Kinematics.FirstAccepted | src/VectGenGenerator.cc:62-72 | returns the first accepted proposal, or None iff every proposal is rejected |
| Kinematics.SampleNuebarP | src/VectGenGenerator.cc:46-76 | envelope scan, then the first proposal whose height lies below the density; its energy and angles are returned |
| Kinematics.FlatDensityAcceptsFirst | src/VectGenGenerator.cc:62-72 | a density flat at the envelope accepts any proposal whose height draw is below 1 |
| Kinematics.SampleElastic | src/VectGenGenerator.cc:78-131 | skip iff abs(costTh) > 1, and then nothing is drawn; otherwise the first accepted cosine in [costTh, 1] |
| EventGen.PositionRadius | src/VectGenGenerator.cc:547-551 | the squared transverse radius is the radial draw times R^2, within [0, R^2] |
| EventGen.PositionRange | src/VectGenGenerator.cc:521-541 | definition of the cylinder each position type selects; its use is stated by `PositionBounds` |
| EventGen.DeterminePosition | src/VectGenGenerator.cc:521-555 | definition of `determinePosition`; its bounds are stated by `PositionRadius`, `PositionHeight` and `PositionBounds` |
| EventGen.PositionHeight | src/VectGenGenerator.cc:552 | z lies in [-H, H] |
| EventGen.PositionBounds | src/VectGenGenerator.cc:521-555 | with draws in [0, 1] the squared radius is u R^2, within [0, R^2], and z lies in [-H, H], for the cylinder the position type selects |
| EventGen.NewEvents | src/VectGenGenerator.cc:766-791 | one record per draw, in order |
| EventGen.NewEventBounds | src/VectGenGenerator.cc:766-791 | each record has the cell's id, species and the supernova direction, time and energy within half a bin of the cell centre, and its vertex in the inner detector |
| EventGen.CounterFor | src/VectGenGenerator.cc:686-723 | a decoded reaction selects at most one of the seventeen counters |
| EventGen.Bump | src/VectGenGenerator.cc:686-723 | the tally keeps its seventeen counters |
| EventGen.SumIncrement | src/VectGenGenerator.cc:727-732 | incrementing one counter raises the total by one |
| EventGen.BumpTotal | src/VectGenGenerator.cc:686-732 | a counted id raises the total by exactly one; any other id leaves the tally unchanged |
| EventGen.SmallIdsCounted | src/VectGenGenerator.cc:689-693 | ids 0..4 increment their own counter |
| EventGen.NCIdsCounted | src/VectGenGenerator.cc:694-709 | a neutral-current id increments the counter of its species and nucleon |
| EventGen.NCCounter | src/VectGenGenerator.cc:702-709 | the species-by-nucleon counter index of a decoded neutral-current reaction |
| EventGen.CCIdsCounted | src/VectGenGenerator.cc:710-720 | an ordinary charged-current id increments nue + O or nuebar + O |
| EventGen.SubIdsCounted | src/VectGenGenerator.cc:719-722 | a sub-reaction id increments only the matching sub counter |
| EventGen.FillUpTo | src/VectGenGenerator.cc:617-725 | the loop state after n events keeps the seventeen counters |
| EventGen.NextFile | src/VectGenGenerator.cc:622-632 | the rotation check moves to the next file or stays, never further |
| EventGen.FillStep | src/VectGenGenerator.cc:620-725 | one loop iteration keeps the seventeen counters and appends at most one entry, never removing any |
| EventGen.FillFiles | src/VectGenGenerator.cc:622-632 | starting at file 0, after n events the file index is (n - 1) / NeventFile, and each entry lands in file iEvt / NeventFile |
| EventGen.FillSound | src/VectGenGenerator.cc:655-685 | every entry comes from a distinct non-skipped event, in increasing order, with its record, primary vertex and particle bank; earlier entries are kept |
| EventGen.FillStepAppends | src/VectGenGenerator.cc:684-686 | one iteration appends the entry of its event unless the kinematics skipped it |
| EventGen.FillGrows | src/VectGenGenerator.cc:617-725 | the loop never removes entries |
| EventGen.FillComplete | src/VectGenGenerator.cc:684-686 | every non-skipped event has an entry |
| EventGen.FillTally | src/VectGenGenerator.cc:686-723 | with counted ids, the tally total grows by exactly the number of entries filled |
| EventGen.TotalIsFilled | src/VectGenGenerator.cc:727-732 | from zeroed counters, totalNumOfGenEvts is the number of entries filled |
| EventGen.ZeroSum | src/VectGenGenerator.cc:727-732 | zeroed counters sum to 0 |
| EventGen.McInfo.Clear | src/VectGenGenerator.cc:619 | the particle bank is empty |
| EventGen.McInfo.SetVertex | src/VectGenGenerator.cc:673-679 | a single primary vertex at the interaction point |
| EventGen.Generator.MakeEvent | src/VectGenGenerator.cc:761-794 | appends exactly the records of its draws, none for a zero count, and leaves earlier records unchanged |
| EventGen.Generator.DetermineKinematics | src/VectGenGenerator.cc:181-519 | on a cleared bank, writes the template the id selects and raises iSkip exactly when the elastic sampler gives up |
| EventGen.Generator.InverseBetaKinematics | src/VectGenGenerator.cc:184-242 | writes the inverse-beta template |
| EventGen.Generator.ElasticKinematics | src/VectGenGenerator.cc:243-284 | writes the elastic template |
| EventGen.Generator.NeutralCurrentKinematics | src/VectGenGenerator.cc:285-372 | writes the neutral-current template |
| EventGen.Generator.ChargedCurrentKinematics | src/VectGenGenerator.cc:373-508 | writes the charged-current template, with nvc counted up row by row |
| EventGen.Generator.AppendNeutrons | src/VectGenGenerator.cc:434-476 | either neutron loop appends exactly its n neutron rows, nvc counting them |
| EventGen.Generator.AppendCCSecondaries | src/VectGenGenerator.cc:430-500 | appends exactly the secondaries of the reaction and keeps nvc equal to the row count |
| EventGen.Generator.FillOne | src/VectGenGenerator.cc:620-725 | one iteration moves the entries, counters and file index one event along the fill specification, and iSkip records that event's skip |
| EventGen.Generator.FillEvent | src/VectGenGenerator.cc:617-732 | the final state is the fill specification over every record: entries, counters and file index; returns the sum of the counters |
| Booking.CCStates | src/VectGenGenerator.cc:1017-1093 | seven requests per excited state |
| Booking.CCBlock | src/VectGenGenerator.cc:1015-1172 | seven requests per (level, excited state) pair |
| Booking.SubBlock | src/VectGenGenerator.cc:1176-1207 | 32 requests per level when the energy exceeds the gate and none otherwise, each the sub-reaction id of its level |
| Booking.NCLevels | src/VectGenGenerator.cc:1211-1322 | one request per level, each with its neutral-current id |
| Booking.CellRequests | src/VectGenGenerator.cc:973-1322 | definition of the booking order of one cell; its length is `CellRequestCount` and its consistency `CellRequestsConsistent` |
| Booking.BookCC | src/VectGenGenerator.cc:1015-1170 | the charged-current loops book exactly the charged-current block |
| Booking.BookSub | src/VectGenGenerator.cc:1176-1207 | the sub-reaction loops book the block iff the energy exceeds the gate, and nothing otherwise |
| Booking.BookNC | src/VectGenGenerator.cc:1211-1322 | the neutral-current loops book the block with species neutrinoType[rcn] |
| Booking.BookCell | src/VectGenGenerator.cc:973-1322 | one cell books the fixed reactions, charged current, gated sub-reactions and neutral current, in source order |
| Booking.CellRequestCount | src/VectGenGenerator.cc:973-1322 | a cell books 655 requests, plus 160 for each sub-reaction gate (15.4 and 11.4 MeV) it passes |
| Booking.CellRequestsLength | src/VectGenGenerator.cc:973-1322 | a cell's count is the five fixed reactions plus the lengths of its six blocks |
| Booking.FixedBlockLengths | src/VectGenGenerator.cc:1015-1322 | each charged-current block books 301 requests and the neutral-current block 48 |
| Booking.CCExStateTotal | src/VectGenGenerator.cc:1015-1020 | the five excitation levels enumerate 43 excited states in all |
| Booking.NCSpeciesCount | src/VectGenGenerator.cc:1211-1322 | one species books 8 + 4 requests |
| Booking.NCBlockCount | src/VectGenGenerator.cc:1211-1322 | the neutral-current block books 12 requests per species |
| Booking.ConcatConsistent | src/VectGenGenerator.cc:973-1322 | consistency is preserved by concatenation |
| Booking.CCBlockConsistent | src/VectGenGenerator.cc:1015-1172 | every charged-current request decodes to the reaction it was booked for, is counted, and carries the species the kinematics writes |
| Booking.CCStatesConsistent | src/VectGenGenerator.cc:1017-1093 | likewise for the excited states of one level |
| Booking.CCRequestConsistent | src/VectGenGenerator.cc:1026-1029 | one charged-current request carries the species its decoded reaction expects |
| Booking.SubBlockConsistent | src/VectGenGenerator.cc:1176-1207 | likewise for the sub-reaction requests |
| Booking.NCBlockConsistent | src/VectGenGenerator.cc:1211-1322 | likewise for the neutral-current requests, with species neutrinoType[rcn] |
| Booking.NCSpeciesConsistent | src/VectGenGenerator.cc:1211-1322 | likewise for one species |
| Booking.FixedConsistent | src/VectGenGenerator.cc:973-1011 | likewise for the five fixed reactions |
| Booking.CellRequestsConsistent | src/VectGenGenerator.cc:973-1322 | every request of a cell is recognised by the kinematics and the tally, and is booked with the species of its incident neutrino |
| Booking.IncidentMatchesBooked | src/VectGenGenerator.cc:184-297 | with neutrinoType = {12, -12, 14, -14}, row 0 of the kinematics carries the booked species |
| Booking.IbdCrossSections | src/VectGenGenerator.cc:805-810 | the inverse-beta table holds the provider's value above eEneThr + DeltaM and 0 at and below it |
| Booking.MakeAll | src/VectGenGenerator.cc:973-1322 | MakeEvent for each request in order appends the records of the whole cell |
| Booking.CellEventsStep | src/VectGenGenerator.cc:973-1322 | one more request appends its own records |
| Booking.ProcessCell | src/VectGenGenerator.cc:949-1322 | one cell appends the records of the requests that flag_event == 1 admits |
| Booking.CellEventCount | src/VectGenGenerator.cc:767-768 | a cell books as many records as its Poisson counts add up to |
| Booking.CellEventsFromRequests | src/VectGenGenerator.cc:779-781 | every booked record carries the (id, species) pair of one of the cell's requests |
| Booking.CellEventsConsistent | src/VectGenGenerator.cc:973-1322 | so every booked record has an id the kinematics and the tally recognise and the species of its incident neutrino |
| FileIO.Pow10 | src/SKSNSimFileIO.cc:104 | powers of ten are positive |
| FileIO.DigitChar | src/SKSNSimFileIO.cc:104 | a digit value prints as a digit character |
| FileIO.Digits | src/SKSNSimFileIO.cc:104 | a number prints as at least one digit |
| FileIO.ZeroPad | src/SKSNSimFileIO.cc:104 | padding reaches the width with leading zeros |
| FileIO.Fmt06d | src/SKSNSimFileIO.cc:104 | %06d prints at least six digit or sign characters |
| FileIO.DigitsRoundTrip | src/SKSNSimFileIO.cc:104 | the digits of n read back as n |
| FileIO.ParseConcat | src/SKSNSimFileIO.cc:104 | reading a concatenation of digit strings |
| FileIO.ParseZeros | src/SKSNSimFileIO.cc:104 | a run of zeros reads as 0 |
| FileIO.ZeroPadRoundTrip | src/SKSNSimFileIO.cc:104 | zero padding does not change the value |
| FileIO.Fmt06dRoundTrip | src/SKSNSimFileIO.cc:104 | %06d reads back as the number printed, sign included |
| FileIO.Fmt06dInjective | src/SKSNSimFileIO.cc:104 | distinct numbers print differently |
| FileIO.DigitsLength | src/SKSNSimFileIO.cc:104 | a number below 10^k has at most k digits |
| FileIO.Fmt06dWidth | src/SKSNSimFileIO.cc:104 | indices below a million print as exactly six characters |
| FileIO.Truncated | src/SKSNSimFileIO.cc:103-105 | snprintf into 999 bytes keeps the first 998 characters, and short names whole |
| FileIO.SplitMiddle | src/SKSNSimFileIO.cc:104 | equal names with equal head and tail have equal middles |
| FileIO.NoRuntimeNamesDistinct | src/SKSNSimFileIO.cc:102-106 | while names fit the buffer, distinct file indices get distinct names |
| FileIO.FirstUnderscore | src/SKSNSimFileIO.cc:129 | the first underscore of "a_b" is the separator when a has none |
| FileIO.SplitAtUnderscore | src/SKSNSimFileIO.cc:129 | two underscore-free texts joined by "_" split back uniquely |
| FileIO.NoUnderscore | src/SKSNSimFileIO.cc:129 | %06d prints no underscore |
| FileIO.RuntimeNamesDistinct | src/SKSNSimFileIO.cc:127-131 | while names fit the buffer, distinct (run, subrun) pairs get distinct names |
| FileIO.FullFiles | src/SKSNSimFileIO.cc:108-111 | files 0..n-1, each with the full per-file count |
| FileIO.NoRuntimeList | src/SKSNSimFileIO.cc:93-117 | definition of the fixed-size plan; its shape is stated by `NoRuntimePartition` and `NoRuntimeLabels` |
| FileIO.GenerateOutputFileListNoRuntime | src/SKSNSimFileIO.cc:93-117 | the push-back loop builds exactly the fixed-size plan |
| FileIO.FullFilesTotal | src/SKSNSimFileIO.cc:108-111 | n full files hold n x perFile events |
| FileIO.NoRuntimePartition | src/SKSNSimFileIO.cc:97-116 | N / perFile full files, one more of N % perFile events iff that is non-zero, and the counts sum to N |
| FileIO.PlanSplit | src/SKSNSimFileIO.cc:108-116 | full files followed by an optional remainder file hold the sum of their counts |
| FileIO.NoRuntimeLabels | src/SKSNSimFileIO.cc:94-115 | every fixed-size file has run 999999 and subrun -1, and file k is named with index k |
| FileIO.FindSKPeriod | src/SKSNSimFileIO.cc:152-165 | the result is one of the five period starts, and it is the SK-I-III start or no later than the run |
| FileIO.FindSKPeriodCases | src/SKSNSimFileIO.cc:152-165 | with ordered periods each start is returned exactly for its runs, end included; SK-VII for every later run; the SK-I-III start for earlier runs and gaps |
| FileIO.FindTimeFile | src/SKSNSimFileIO.cc:167-182 | the result is "" or one of the three live-time paths |
| FileIO.TimeFileAgreesWithPeriod | src/SKSNSimFileIO.cc:152-182 | the file lookup agrees with the period lookup except at a period's last run (half-open against inclusive bounds), and it is "" before SK-IV, from SK-VII on and in gaps |
| FileIO.Filter | src/SKSNSimFileIO.cc:217-229 | filtering never lengthens a list |
| FileIO.FilterMembership | src/SKSNSimFileIO.cc:217-229 | an element survives iff it was present and accepted |
| FileIO.FilterConcat | src/SKSNSimFileIO.cc:226-229 | filtering keeps relative order: it distributes over concatenation |
| FileIO.EraseUnless | src/SKSNSimFileIO.cc:217-229 | the erase-in-place iterator loop leaves exactly the accepted elements, in order |
| FileIO.KeptPeriodsExact | src/SKSNSimFileIO.cc:216-221 | a period is kept iff its start lies between the periods of the two range ends, both included |
| FileIO.KeptIvToV | src/SKSNSimFileIO.cc:216-221 | a range from the SK-IV start to the SK-V start keeps exactly those two periods |
| FileIO.LoadPeriodsAsWritten | src/SKSNSimFileIO.cc:184-224 | as written, the load loop leaves only the records of the last kept period |
| FileIO.LoadPeriods | src/SKSNSimFileIO.cc:223-224 | the corrected load loop concatenates the records of every kept period |
| FileIO.ConcatPeriodsMembership | src/SKSNSimFileIO.cc:223-224 | a record is loaded iff it belongs to one of the kept periods |
| FileIO.ConvDoubleToInt | src/SKSNSimFileIO.cc:231-240 | the count is the truncated expectation or one more |
| FileIO.StochasticRounding | src/SKSNSimFileIO.cc:231-240 | for d*w >= 0 and a draw in [0, 1): the floor, plus one exactly when the draw is at most the fraction (ties included), so the count lies within one of the expectation |
| FileIO.ExactCountTie | src/SKSNSimFileIO.cc:237-238 | an exact expectation is rounded up only on a zero draw |
| FileIO.RunEventsOf | src/SKSNSimFileIO.cc:242-246 | one entry per record, in order, with its run, its subrun and the rounded count |
| FileIO.ReadTimeEventFile | src/SKSNSimFileIO.cc:207-249 | the period erase loop, the loading loop whose every call replaces the buffer, the run filter and the rounding loop compute the live-time event list as the code produces it |
| FileIO.CountLiveRecords | src/SKSNSimFileIO.cc:226-246 | erasing the records outside [runBegin, runEnd) and pushing one rounded entry per remaining record gives the entries of the filtered records, in order |
| FileIO.ReadTimeEventFileIntended | src/SKSNSimFileIO.cc:207-249 | the same loops with each period's records appended compute the list over every kept period |
| FileIO.RuntimeFilterExact | src/SKSNSimFileIO.cc:184-229 | as written, a record survives iff its run lies in [runBegin, runEnd) and it belongs to the last kept period |
| FileIO.RuntimeFilterExactIntended | src/SKSNSimFileIO.cc:213-229 | appending, a record survives iff its run lies in [runBegin, runEnd) and it belongs to some kept period |
| FileIO.GenerateOutputFileListRuntime | src/SKSNSimFileIO.cc:118-141 | builds exactly the live-time plan over the records `ReadTimeEventFile` keeps, and nothing when the configuration does not ask for it |
| FileIO.FileSetsOfPrefix | src/SKSNSimFileIO.cc:132-138 | the plan of one more entry is the plan so far plus the file of that entry |
| FileIO.FileSetsFor | src/SKSNSimFileIO.cc:132-138 | the push-back loop names and pushes one file per entry |
| FileIO.RuntimeMirrors | src/SKSNSimFileIO.cc:118-141 | the live-time plan mirrors the kept records: same length and order, same run and subrun, named after them, with the rounded count at runtimeFactor / 60 events per unit |
| FileIO.MirrorsRecords | src/SKSNSimFileIO.cc:132-138 | the same for any record list and weight |
| FileIO.GenerateOutputFileList | src/SKSNSimFileIO.cc:142-150 | the live-time plan iff normRuntime, otherwise the fixed-size plan |
| FileIO.PlansExclusive | src/SKSNSimFileIO.cc:96-120 | the plan not selected is empty |
| FileIO.FilterPair | src/SKSNSimFileIO.cc:226-229 | filtering a two-element list |
| FileIO.ClearingDropsEarlierPeriods | src/SKSNSimFileIO.cc:184-224 | a range from the SK-IV start to the SK-V start with one SK-IV live record: the kept records are [] as written and [rec] when appending |
| FileIO.ClearingWithSkVii | src/SKSNSimFileIO.cc:167-186 | once SK-VII is in the range, the last kept period is one without a live-time file |
| FileIO.SkViiRangeReadsNothing | src/SKSNSimFileIO.cc:167-249 | so a run range reaching SK-VII gets no live-time entry at all |
| Util.Trunc | src/VectGenGenerator.cc:376-381 | C++ double-to-int conversion truncates toward zero |
| Util.TruncQuotient | src/VectGenGenerator.cc:376-381 | truncating a double quotient of non-negative integers gives the integer quotient |
| Util.TruncQuotientMinusOne | src/VectGenGenerator.cc:376 | the same, one lower |
| Util.CDiv | src/SKSNSimFileIO.cc:97 | C++ int division truncates toward zero, and is the Euclidean quotient on non-negative operands |
| Util.CMod | src/SKSNSimFileIO.cc:98 | C++ int remainder completes the division, and is the Euclidean remainder on non-negative operands |

## Left out

- ROOT persistence: the tree and file creation, writing and closing in `FillEvent` and `SKSNSimFileOutTFile` are foreign-library I/O. The model keeps the output-file index and represents the tree as the list of filled entries.
- Live-time file reading: the contents of each live-time file are a parameter, mapping each path to its records, with no records when the file cannot be opened. The stream parsing and the Fortran reader `read_timevent_` are not modelled.
- Physics providers: the flux and cross-section providers and the `sl_*_dif_rad_` routines are opaque external code. They are parameters, and only their values feed the model.
- Random numbers: `getRandomReal`, `Poisson` and `Rndm` are draws passed in as parameters. The `while(1)` rejection loops, which end only with probability one, are bounded by a finite list of proposals, and the result is None when every proposal is rejected.
- `determineAngleNueO`: its nested sampling loop inside the envelope scan is not modelled. Its lepton energy and angles are inputs.
- Process rate values: the floating-point rates, totals and oscillation weights only set the Poisson means, and these are inputs here. This includes line 1103, which adds where its sibling rows multiply.
- Process control: `exit(0)` at line 954 is not modelled.
- Time sort: `sort(..., evtInfoTSort)` uses a comparator that is not part of this model, and `std::sort` is not stable. FillEvent processes the records in the order given.
- DSNB generator: `Process(int NumEv)` is rejection sampling plus a statistical integral, and is not modelled.
- Console output: `std::cout` and `fprintf` are not modelled.
- Floating point: reals are exact. `sqrt`, `sin`, `cos` and `acos` are uninterpreted, so there is no IEEE rounding and no NaN.
- Name bytes: `snprintf` cuts the file name at 998 bytes, and the model cuts it at 998 `char`s. So each `char` of a configured directory or name stands for one byte. For a name with multi-byte characters, the "fits the buffer" condition of `NoRuntimeNamesDistinct` and `RuntimeNamesDistinct` is measured in characters, not bytes.
- Fixed sizes: the MCVECT bank capacity, the `int` width of ids and counters, and the 1000-byte name buffer beyond its 998-character cut are not bounded.
- Header declarations: `flag_event`, `neutrinoType[]`, the `SK_*` constants, the masses and the detector dimensions are declared in headers that are not part of this model, so they are parameters. The model lists the kept periods in the order SK-IV, SK-V, SK-VI, SK-VII. The code's `std::set` iterates in ascending value order and drops duplicates. So `RuntimeOf`, `ReadTimeEvents` and `ReadTimeEventFile` take the same last period as the code only when the period starts are strictly increasing (`Ordered`), and the whole live-time model assumes that they are. The lemmas that depend on it require `Ordered`.
- `MCInfo::Clear` is not part of this model. It is assumed to empty the bank.
- Booking order: the booking order of one cell is computed first. `MakeEvent` then runs over it in the same order, which is equivalent because booking consumes no draws.
- Kinematics.SampleElastic: when the sampler skips, the energy and angles it returns are unspecified. The source leaves them uninitialised.
- EventGen.Generator.DetermineKinematics: requires a cleared bank. `FillEvent` always clears the bank before the call.
- Booking.IncidentMatchesBooked: states the species match under the standard `neutrinoType` codes only, because the header values are not part of this model.
- `Kinematics.Tables`: the decay tables are total functions on `int`. The code reads `numNtNueO`, `numNtNuebarO` and `numGmNuebarO` at index `channel` at line 430, before it tests `Ex_state != 29`. So a sub-reaction id reads index 8, and an aliased id may read any index. The table sizes are declared in a header that is not part of this model, so the model does not say whether these reads stay in bounds. The same holds for `eneGamN` in the neutral-current branch.
- FileIO.GenerateOutputFileListNoRuntime: requires numEventsPerFile != 0 unless the plan follows the live time, because `/` and `%` at lines 97-98 would divide by zero. `NoRuntimeList` and `PlansExclusive` carry the same requirement.
- EventGen.Generator.FillEvent: requires NeventFile > 0. With 0, `iEvt % NeventFile` at line 622 divides by zero from the second event on. A negative value would be converted to an unsigned divisor, because `iEvt` is unsigned. `FillOne`, `FillStep`, `NextFile` and the fill lemmas carry the same requirement.
- FileIO.NoRuntimeLabels: requires a non-negative quotient. The plan for a negative event total is left unconstrained.

## Findings

| source | as written | input that shows it | evidently intended | confidence | as-written member | corrected member |
|---|---|---|---|---|---|---|
| src/SKSNSimFileIO.cc:186, 223-224 | `LoadTimeEventsFromFile` clears its buffer on every call, so the loop over the kept periods leaves only the records of the last one. When SK-VII is in the range, whose live-time path is "", nothing is left at all. | runtimeRunBegin = SK_IV_BEGIN, runtimeRunEnd = SK_V_BEGIN, and one live-time record in SK-IV with run SK_IV_BEGIN. As written the live-time list is empty; appending keeps the record. | every kept period's records are appended, then filtered by run | not executed | FileIO.ReadTimeEventFile, FileIO.LoadPeriodsAsWritten, FileIO.RuntimeFilterExact, FileIO.ClearingDropsEarlierPeriods, FileIO.SkViiRangeReadsNothing | FileIO.ReadTimeEventFileIntended, FileIO.LoadPeriods, FileIO.RuntimeFilterExactIntended, FileIO.ConcatPeriodsMembership |
