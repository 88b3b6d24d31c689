/** The booking loops of `Process` for one (time, energy) cell: the list
    of (reaction id, neutrino species) requests it passes to `MakeEvent`,
    in loop order, with the energy gates of the aggregate sub-reactions,
    and the inverse-beta cross-section gate of the cross-section table.

    The rates themselves (fluxes, cross sections, oscillation weights)
    only decide the Poisson count of each request, which `MakeEvent` takes
    as input. */
module Booking {
  import opened ReactionId
  import opened Kinematics
  import opened Util
  import opened EventGen

  /** One call `MakeEvent(time, nu_energy, nReact, nuType, rate)`. */
  datatype Request = Request(nReact: int, nuType: int)

  /** Sub-reactions are booked only above these neutrino energies (MeV). */
  const NueSubThreshold: real := 15.4
  const NuebarSubThreshold: real := 11.4

  /** Loop bounds of `Process`: the charged-current energy levels and the
      neutral-current neutrino species. */
  const NumCCLevels: nat := 5
  const NumSpecies: nat := 4

  /** The five fixed reactions: inverse beta decay and elastic scattering
      of nue, nuebar, nux, nuxbar. */
  function FixedRequests(): seq<Request>
  {
    [Request(0, -12), Request(1, 12), Request(2, -12), Request(3, 14), Request(4, -14)]
  }

  /** Charged current: channels 0..n-1 of one excited state. */
  function CCChannels(rcn: int, nuType: int, e: int, s: int, n: nat): seq<Request>
  {
    seq(n, ch => Request(EncodeCC(rcn, e, s, ch), nuType))
  }

  /** Charged current: the first m excited states of one energy level,
      seven channels each. */
  function CCStates(rcn: int, nuType: int, e: int, m: nat): (r: seq<Request>)
    ensures |r| == 7 * m
  {
    if m == 0 then [] else CCStates(rcn, nuType, e, m - 1) + CCChannels(rcn, nuType, e, m - 1, 7)
  }

  /** Number of (energy level, excited state) pairs over the first m
      energy levels, level e having exStates(e) excited states. */
  function ExStateTotal(m: nat, exStates: int -> nat): nat
  {
    if m == 0 then 0 else ExStateTotal(m - 1, exStates) + exStates(m - 1)
  }

  /** Charged current: the first m energy levels, level e with the
      exStates(e) excited states its cross-section table holds (`Process`
      passes `NumExStates`). */
  function CCBlock(rcn: int, nuType: int, m: nat, exStates: int -> nat): (r: seq<Request>)
    ensures |r| == 7 * ExStateTotal(m, exStates)
  {
    if m == 0 then [] else CCBlock(rcn, nuType, m - 1, exStates) + CCStates(rcn, nuType, m - 1, exStates(m - 1))
  }

  /** Sub-reaction: for the first m energy levels, 32 identical requests
      per level (the channel is not part of the id), each booked only when
      the cell's energy exceeds the gate. */
  function SubBlock(rcn: int, nuType: int, nuEnergy: real, gate: real, m: nat): (r: seq<Request>)
    ensures |r| == if nuEnergy > gate then 32 * m else 0
    ensures forall i :: 0 <= i < |r| ==> r[i] == Request(EncodeSub(rcn, i / 32), nuType)
  {
    if m == 0 then []
    else
      var prev := SubBlock(rcn, nuType, nuEnergy, gate, m - 1);
      var row := if nuEnergy > gate then seq(32, _ => Request(EncodeSub(rcn, m - 1), nuType)) else [];
      assert forall i :: 32 * (m - 1) <= i < 32 * m ==> i / 32 == m - 1;
      prev + row
  }

  /** Neutral current: the first n levels of one species and nucleon. */
  function NCLevels(rcn: int, excit: int, nuType: int, n: nat): (r: seq<Request>)
    ensures |r| == n
    ensures forall l :: 0 <= l < n ==> r[l] == Request(EncodeNC(rcn, excit, l), nuType)
  {
    if n == 0 then [] else NCLevels(rcn, excit, nuType, n - 1) + [Request(EncodeNC(rcn, excit, n - 1), nuType)]
  }

  /** Neutral current: the first x nucleons of one species. */
  function NCSpecies(rcn: int, nuType: int, x: nat): seq<Request>
  {
    if x == 0 then [] else NCSpecies(rcn, nuType, x - 1) + NCLevels(rcn, x - 1, nuType, NumNCLevels(x - 1))
  }

  /** Neutral current: the first m species, each with the species code
      `neutrinoType[rcn]`. */
  function NCBlock(neutrinoType: int -> int, m: nat): seq<Request>
  {
    if m == 0 then [] else NCBlock(neutrinoType, m - 1) + NCSpecies(m - 1, neutrinoType(m - 1), 2)
  }

  /** Every request of one energy cell, in the order `Process` makes them. */
  function CellRequests(nuEnergy: real, neutrinoType: int -> int): seq<Request>
  {
    FixedRequests()
    + CCBlock(0, 12, NumCCLevels, NumExStates) + CCBlock(1, -12, NumCCLevels, NumExStates)
    + SubBlock(0, 12, nuEnergy, NueSubThreshold, NumCCLevels)
    + SubBlock(1, -12, nuEnergy, NuebarSubThreshold, NumCCLevels)
    + NCBlock(neutrinoType, NumSpecies)
  }

  // ---------------------------------------------------------------------
  // The loops

  /** The charged-current loops of one neutrino: energy level, excited
      state, channel. */
  method BookCC(rcn: int, nuType: int) returns (reqs: seq<Request>)
    ensures reqs == CCBlock(rcn, nuType, NumCCLevels, NumExStates)
  {
    reqs := [];
    for exEnergy := 0 to NumCCLevels
      invariant reqs == CCBlock(rcn, nuType, exEnergy, NumExStates)
    {
      ghost var b0 := reqs;
      for exState := 0 to NumExStates(exEnergy)
        invariant reqs == b0 + CCStates(rcn, nuType, exEnergy, exState)
      {
        ghost var b1 := reqs;
        for ch := 0 to 7
          invariant reqs == b1 + CCChannels(rcn, nuType, exEnergy, exState, ch)
        {
          var q := Request(EncodeCC(rcn, exEnergy, exState, ch), nuType);
          assert CCChannels(rcn, nuType, exEnergy, exState, ch + 1) == CCChannels(rcn, nuType, exEnergy, exState, ch) + [q];
          AppendAssoc(b1, CCChannels(rcn, nuType, exEnergy, exState, ch), [q]);
          reqs := reqs + [q];
        }
        AppendAssoc(b0, CCStates(rcn, nuType, exEnergy, exState), CCChannels(rcn, nuType, exEnergy, exState, 7));
      }
    }
  }

  /** The sub-reaction loops of one neutrino; each call is made only
      above the energy gate. */
  method BookSub(rcn: int, nuType: int, nuEnergy: real, gate: real) returns (reqs: seq<Request>)
    ensures reqs == SubBlock(rcn, nuType, nuEnergy, gate, NumCCLevels)
  {
    reqs := [];
    for exEnergy := 0 to NumCCLevels
      invariant reqs == SubBlock(rcn, nuType, nuEnergy, gate, exEnergy)
    {
      ghost var before := reqs;
      for ch := 0 to 32
        invariant reqs == if nuEnergy > gate then before + seq(ch, _ => Request(EncodeSub(rcn, exEnergy), nuType)) else before
      {
        if nuEnergy > gate {
          reqs := reqs + [Request(EncodeSub(rcn, exEnergy), nuType)];
        }
      }
    }
  }

  /** The neutral-current loops: species, nucleon, level. */
  method BookNC(neutrinoType: int -> int) returns (reqs: seq<Request>)
    ensures reqs == NCBlock(neutrinoType, NumSpecies)
  {
    reqs := [];
    for rcn := 0 to NumSpecies
      invariant reqs == NCBlock(neutrinoType, rcn)
    {
      ghost var b0 := reqs;
      for excit := 0 to 2
        invariant reqs == b0 + NCSpecies(rcn, neutrinoType(rcn), excit)
      {
        ghost var b1 := reqs;
        for exEnergy := 0 to NumNCLevels(excit)
          invariant reqs == b1 + NCLevels(rcn, excit, neutrinoType(rcn), exEnergy)
        {
          var q := Request(EncodeNC(rcn, excit, exEnergy), neutrinoType(rcn));
          AppendAssoc(b1, NCLevels(rcn, excit, neutrinoType(rcn), exEnergy), [q]);
          reqs := reqs + [q];
        }
        AppendAssoc(b0, NCSpecies(rcn, neutrinoType(rcn), excit), NCLevels(rcn, excit, neutrinoType(rcn), NumNCLevels(excit)));
      }
    }
  }

  /** The booking order of one energy cell. */
  method BookCell(nuEnergy: real, neutrinoType: int -> int) returns (reqs: seq<Request>)
    ensures reqs == CellRequests(nuEnergy, neutrinoType)
  {
    reqs := [Request(0, -12), Request(1, 12), Request(2, -12), Request(3, 14), Request(4, -14)];
    var nueO := BookCC(0, 12);
    var nuebarO := BookCC(1, -12);
    var nueSub := BookSub(0, 12, nuEnergy, NueSubThreshold);
    var nuebarSub := BookSub(1, -12, nuEnergy, NuebarSubThreshold);
    var nc := BookNC(neutrinoType);
    reqs := reqs + nueO + nuebarO + nueSub + nuebarSub + nc;
  }

  // ---------------------------------------------------------------------
  // Properties of the booking

  /** The species the charged-current loops book: nue for oxygen
      reaction 0, nuebar for reaction 1. */
  function CCNuType(rcn: int): int
  {
    if rcn == 0 then 12 else -12
  }

  /** Every request of a list is consistent. */
  predicate AllConsistent(neutrinoType: int -> int, qs: seq<Request>)
  {
    forall i :: 0 <= i < |qs| ==> Consistent(neutrinoType, qs[i])
  }

  lemma ConcatConsistent(neutrinoType: int -> int, a: seq<Request>, b: seq<Request>)
    requires AllConsistent(neutrinoType, a) && AllConsistent(neutrinoType, b)
    ensures AllConsistent(neutrinoType, a + b)
  {
    forall i | 0 <= i < |a + b|
      ensures Consistent(neutrinoType, (a + b)[i])
    {
      if i < |a| {
        assert (a + b)[i] == a[i];
      } else {
        assert (a + b)[i] == b[i - |a|];
      }
    }
  }

  /** A request agrees with the kinematics it will get: its id is
      recognised and counted, and its species is the one the kinematics
      writes for the incident neutrino (species `neutrinoType[rcn]` for
      neutral current). */
  predicate Consistent(neutrinoType: int -> int, q: Request)
  {
    Counted(q.nReact) &&
    match Decode(q.nReact)
    case InverseBeta => q.nuType == -12
    case Elastic(f) => q.nuType == FlavorCode(f - 1)
    case NeutralCurrent(x, _, _) => q.nuType == neutrinoType(x)
    case ChargedCurrent(r, _, _, _) => q.nuType == CCNuType(r)
    case Unrecognized => false
  }

  /** One cell books the five fixed requests, seven per charged-current
      (energy level, excited state) pair for each neutrino and twelve per
      neutral-current species, plus 32 per energy level for each
      sub-reaction whose energy gate the cell passes: 655 below both gates,
      815 between them and 975 above both. */
  lemma CellRequestCount(nuEnergy: real, neutrinoType: int -> int)
    ensures |CellRequests(nuEnergy, neutrinoType)| ==
            655 + (if nuEnergy > NueSubThreshold then 160 else 0)
                + (if nuEnergy > NuebarSubThreshold then 160 else 0)
  {
    CellRequestsLength(nuEnergy, neutrinoType);
    FixedBlockLengths(neutrinoType);
  }

  lemma FixedBlockLengths(neutrinoType: int -> int)
    ensures |CCBlock(0, 12, NumCCLevels, NumExStates)| == 301
    ensures |CCBlock(1, -12, NumCCLevels, NumExStates)| == 301
    ensures |NCBlock(neutrinoType, NumSpecies)| == 48
  {
    CCExStateTotal();
    NCBlockCount(neutrinoType, NumSpecies);
  }

  lemma CellRequestsLength(nuEnergy: real, neutrinoType: int -> int)
    ensures |CellRequests(nuEnergy, neutrinoType)| ==
            5 + |CCBlock(0, 12, NumCCLevels, NumExStates)| + |CCBlock(1, -12, NumCCLevels, NumExStates)|
            + |SubBlock(0, 12, nuEnergy, NueSubThreshold, NumCCLevels)|
            + |SubBlock(1, -12, nuEnergy, NuebarSubThreshold, NumCCLevels)| + |NCBlock(neutrinoType, NumSpecies)|
  {
    ConcatLength(FixedRequests(), CCBlock(0, 12, NumCCLevels, NumExStates), CCBlock(1, -12, NumCCLevels, NumExStates),
                 SubBlock(0, 12, nuEnergy, NueSubThreshold, NumCCLevels),
                 SubBlock(1, -12, nuEnergy, NuebarSubThreshold, NumCCLevels), NCBlock(neutrinoType, NumSpecies));
  }

  lemma ConcatLength<T>(a: seq<T>, b: seq<T>, c: seq<T>, d: seq<T>, e: seq<T>, f: seq<T>)
    ensures |a + b + c + d + e + f| == |a| + |b| + |c| + |d| + |e| + |f|
  {
  }

  /** The charged-current loops visit 3 + 15 + 8 + 1 + 16 = 43 excited
      states. */
  lemma CCExStateTotal()
    ensures ExStateTotal(NumCCLevels, NumExStates) == 43
  {
    assert ExStateTotal(1, NumExStates) == 3;
    assert ExStateTotal(2, NumExStates) == 18;
    assert ExStateTotal(3, NumExStates) == 26;
    assert ExStateTotal(4, NumExStates) == 27;
  }

  lemma {:induction false} NCSpeciesCount(rcn: int, nuType: int, x: nat)
    requires x <= 2
    ensures |NCSpecies(rcn, nuType, x)| == (if x == 0 then 0 else if x == 1 then 8 else 12)
  {
    if x > 0 {
      NCSpeciesCount(rcn, nuType, x - 1);
    }
  }

  lemma {:induction false} NCBlockCount(neutrinoType: int -> int, m: nat)
    ensures |NCBlock(neutrinoType, m)| == 12 * m
  {
    if m > 0 {
      NCBlockCount(neutrinoType, m - 1);
      NCSpeciesCount(m - 1, neutrinoType(m - 1), 2);
    }
  }

  /** Charged-current requests of the encoded domain are consistent. */
  lemma {:induction false} CCBlockConsistent(neutrinoType: int -> int, rcn: int, m: nat)
    requires 0 <= rcn < 2 && m <= NumCCLevels
    ensures AllConsistent(neutrinoType, CCBlock(rcn, CCNuType(rcn), m, NumExStates))
  {
    if m > 0 {
      CCBlockConsistent(neutrinoType, rcn, m - 1);
      CCStatesConsistent(neutrinoType, rcn, m - 1, NumExStates(m - 1));
    }
  }

  lemma {:induction false} CCStatesConsistent(neutrinoType: int -> int, rcn: int, e: int, m: nat)
    requires 0 <= rcn < 2 && 0 <= e < 5 && m <= NumExStates(e)
    ensures AllConsistent(neutrinoType, CCStates(rcn, CCNuType(rcn), e, m))
  {
    var nt := CCNuType(rcn);
    if m > 0 {
      CCStatesConsistent(neutrinoType, rcn, e, m - 1);
      var row := CCChannels(rcn, nt, e, m - 1, 7);
      forall ch | 0 <= ch < 7
        ensures Consistent(neutrinoType, row[ch])
      {
        assert row[ch] == Request(EncodeCC(rcn, e, m - 1, ch), nt);
        CCRequestConsistent(neutrinoType, rcn, e, m - 1, ch);
      }
      assert CCStates(rcn, nt, e, m) == CCStates(rcn, nt, e, m - 1) + row;
      ConcatConsistent(neutrinoType, CCStates(rcn, nt, e, m - 1), row);
    }
  }

  /** One charged-current request is consistent. */
  lemma CCRequestConsistent(neutrinoType: int -> int, rcn: int, e: int, st: int, ch: int)
    requires ValidCC(rcn, e, st, ch)
    ensures Consistent(neutrinoType, Request(EncodeCC(rcn, e, st, ch), CCNuType(rcn)))
  {
    CCRoundTrip(rcn, e, st, ch);
    CCIdsCounted(rcn, e, st, ch);
  }

  lemma {:induction false} SubBlockConsistent(neutrinoType: int -> int, rcn: int, nuEnergy: real, gate: real, m: nat)
    requires 0 <= rcn < 2 && m <= NumCCLevels
    ensures AllConsistent(neutrinoType, SubBlock(rcn, CCNuType(rcn), nuEnergy, gate, m))
  {
    var nt := CCNuType(rcn);
    var r := SubBlock(rcn, nt, nuEnergy, gate, m);
    forall i | 0 <= i < |r|
      ensures Consistent(neutrinoType, r[i])
    {
      assert r[i] == Request(EncodeSub(rcn, i / 32), nt);
      SubRoundTrip(rcn, i / 32);
      SubIdsCounted(rcn, i / 32);
    }
  }

  lemma {:induction false} NCBlockConsistent(neutrinoType: int -> int, m: nat)
    requires m <= NumSpecies
    ensures AllConsistent(neutrinoType, NCBlock(neutrinoType, m))
  {
    if m > 0 {
      NCBlockConsistent(neutrinoType, m - 1);
      NCSpeciesConsistent(neutrinoType, m - 1, 2);
    }
  }

  lemma {:induction false} NCSpeciesConsistent(neutrinoType: int -> int, rcn: int, x: nat)
    requires 0 <= rcn < 4 && x <= 2
    ensures AllConsistent(neutrinoType, NCSpecies(rcn, neutrinoType(rcn), x))
  {
    if x > 0 {
      NCSpeciesConsistent(neutrinoType, rcn, x - 1);
      var row := NCLevels(rcn, x - 1, neutrinoType(rcn), NumNCLevels(x - 1));
      forall l | 0 <= l < |row|
        ensures Consistent(neutrinoType, row[l])
      {
        NCRoundTrip(rcn, x - 1, l);
        NCIdsCounted(rcn, x - 1, l);
      }
    }
  }

  /** Every request `Process` books for a cell is consistent: the id is
      one `determineKinematics` and the tally recognise, and the species
      recorded is that of the incident neutrino the kinematics writes. */
  lemma FixedConsistent(neutrinoType: int -> int)
    ensures AllConsistent(neutrinoType, FixedRequests())
  {
    var qs := FixedRequests();
    forall i | 0 <= i < 5
      ensures Consistent(neutrinoType, qs[i])
    {
      SmallIdsCounted(i);
      assert Decode(i) == if i == 0 then InverseBeta else Elastic(i);
    }
  }

  lemma CellRequestsConsistent(nuEnergy: real, neutrinoType: int -> int)
    ensures AllConsistent(neutrinoType, CellRequests(nuEnergy, neutrinoType))
  {
    var nt := neutrinoType;
    var cc0, cc1 := CCBlock(0, 12, NumCCLevels, NumExStates), CCBlock(1, -12, NumCCLevels, NumExStates);
    var sub0 := SubBlock(0, 12, nuEnergy, NueSubThreshold, NumCCLevels);
    var sub1 := SubBlock(1, -12, nuEnergy, NuebarSubThreshold, NumCCLevels);
    var nc := NCBlock(nt, NumSpecies);
    FixedConsistent(nt);
    CCBlockConsistent(nt, 0, NumCCLevels);
    CCBlockConsistent(nt, 1, NumCCLevels);
    SubBlockConsistent(nt, 0, nuEnergy, NueSubThreshold, NumCCLevels);
    SubBlockConsistent(nt, 1, nuEnergy, NuebarSubThreshold, NumCCLevels);
    NCBlockConsistent(nt, NumSpecies);
    ConcatConsistent(nt, FixedRequests(), cc0);
    ConcatConsistent(nt, FixedRequests() + cc0, cc1);
    ConcatConsistent(nt, FixedRequests() + cc0 + cc1, sub0);
    ConcatConsistent(nt, FixedRequests() + cc0 + cc1 + sub0, sub1);
    ConcatConsistent(nt, FixedRequests() + cc0 + cc1 + sub0 + sub1, nc);
  }

  /** With `neutrinoType` = {12, -12, 14, -14}, the species booked for a
      consistent request is the incident neutrino code row 0 of its
      kinematics carries. */
  lemma IncidentMatchesBooked(neutrinoType: int -> int, q: Request, ph: Physics, tb: Tables,
                              rmat: seq<seq<real>>, nuEne: real, snDir: Vec3, d: KinDraw)
    requires IsMat3(rmat) && Consistent(neutrinoType, q)
    requires forall k :: 0 <= k < 4 ==> neutrinoType(k) == FlavorCode(k)
    ensures var kin := FinalState(ph, tb, rmat, q.nReact, nuEne, snDir, d);
      |kin.tracks| > 0 && kin.tracks[0].ipvc == q.nuType
  {
  }

  // ---------------------------------------------------------------------
  // The inverse-beta cross-section table

  /** Centre of energy bin i. */
  function BinCentre(lo: real, size: real, i: int): real
  {
    lo + (i as real + 0.5) * size
  }

  /** The inverse-beta entries of the total cross-section table: the
      provider's value above the threshold eEneThr + DeltaM, zero (the
      array's initial value) at and below it. */
  method IbdCrossSections(nuEneMin: real, nuEneBinSize: real, nuEneNBins: nat, eEneThr: real,
                          deltaM: real, csNuebarP: real -> real)
    returns (totcrsIBD: seq<real>)
    ensures |totcrsIBD| == nuEneNBins
    ensures forall i :: 0 <= i < nuEneNBins ==>
              var e := BinCentre(nuEneMin, nuEneBinSize, i);
              totcrsIBD[i] == if e > eEneThr + deltaM then csNuebarP(e) else 0.0
  {
    var tot := new real[nuEneNBins](_ => 0.0);
    for i := 0 to nuEneNBins
      invariant forall k :: 0 <= k < i ==>
                  var e := BinCentre(nuEneMin, nuEneBinSize, k);
                  tot[k] == if e > eEneThr + deltaM then csNuebarP(e) else 0.0
      invariant forall k :: i <= k < nuEneNBins ==> tot[k] == 0.0
    {
      var nuEnergy := BinCentre(nuEneMin, nuEneBinSize, i);
      if nuEnergy > eEneThr + deltaM {
        tot[i] := csNuebarP(nuEnergy);
      }
    }
    totcrsIBD := tot[..];
  }

  // ---------------------------------------------------------------------
  // Booking one cell into the generator

  /** The records one cell books: for each request in order, one record
      per draw of its Poisson count. */
  function CellEvents(s: Setup, snDir: Vec3, time: real, nuEnergy: real, reqs: seq<Request>,
                      draws: seq<seq<EventDraw>>): seq<EventInfo>
    requires |draws| == |reqs|
  {
    if |reqs| == 0 then []
    else
      var k := |reqs| - 1;
      CellEvents(s, snDir, time, nuEnergy, reqs[..k], draws[..k])
      + NewEvents(s, snDir, time, nuEnergy, reqs[k].nReact, reqs[k].nuType, draws[k])
  }

  /** Total of the Poisson counts. */
  function DrawCount(draws: seq<seq<EventDraw>>): nat
  {
    if |draws| == 0 then 0 else DrawCount(draws[..|draws| - 1]) + |draws[|draws| - 1]|
  }

  /** `MakeEvent` for each request in order. */
  method MakeAll(g: Generator, time: real, nuEnergy: real, reqs: seq<Request>, draws: seq<seq<EventDraw>>)
    requires |draws| == |reqs|
    modifies g`events
    ensures g.events == old(g.events) + CellEvents(g.setup, g.snDir, time, nuEnergy, reqs, draws)
  {
    ghost var before := g.events;
    ghost var s, dir := g.setup, g.snDir;
    for k := 0 to |reqs|
      invariant g.snDir == dir
      invariant g.events == before + CellEvents(s, dir, time, nuEnergy, reqs[..k], draws[..k])
    {
      var q := reqs[k];
      g.MakeEvent(time, nuEnergy, q.nReact, q.nuType, draws[k]);
      CellEventsStep(s, dir, time, nuEnergy, reqs, draws, k);
      AppendAssoc(before, CellEvents(s, dir, time, nuEnergy, reqs[..k], draws[..k]),
                  NewEvents(s, dir, time, nuEnergy, q.nReact, q.nuType, draws[k]));
    }
    assert reqs[..|reqs|] == reqs;
    assert draws[..|reqs|] == draws;
  }

  lemma CellEventsStep(s: Setup, snDir: Vec3, time: real, nuEnergy: real, reqs: seq<Request>,
                       draws: seq<seq<EventDraw>>, k: int)
    requires |draws| == |reqs| && 0 <= k < |reqs|
    ensures CellEvents(s, snDir, time, nuEnergy, reqs[..k + 1], draws[..k + 1])
            == CellEvents(s, snDir, time, nuEnergy, reqs[..k], draws[..k])
               + NewEvents(s, snDir, time, nuEnergy, reqs[k].nReact, reqs[k].nuType, draws[k])
  {
    assert reqs[..k + 1][..k] == reqs[..k];
    assert draws[..k + 1][..k] == draws[..k];
  }

  /** Every call of the cell is guarded by `flag_event == 1`. */
  function BookedRequests(nuEnergy: real, neutrinoType: int -> int, flagEvent: int): seq<Request>
  {
    if flagEvent == 1 then CellRequests(nuEnergy, neutrinoType) else []
  }

  /** One cell of `Process`: every request of the cell through
      `MakeEvent`, in booking order. */
  method ProcessCell(g: Generator, time: real, nuEnergy: real, neutrinoType: int -> int, flagEvent: int,
                     draws: seq<seq<EventDraw>>)
    requires |draws| == |BookedRequests(nuEnergy, neutrinoType, flagEvent)|
    modifies g`events
    ensures g.events == old(g.events) + CellEvents(g.setup, g.snDir, time, nuEnergy,
                                                   BookedRequests(nuEnergy, neutrinoType, flagEvent), draws)
  {
    if flagEvent == 1 {
      var reqs := BookCell(nuEnergy, neutrinoType);
      MakeAll(g, time, nuEnergy, reqs, draws);
    } else {
      MakeAll(g, time, nuEnergy, [], draws);  // books nothing
    }
  }

  /** A cell books exactly as many records as its counts add up to. */
  lemma {:induction false} CellEventCount(s: Setup, snDir: Vec3, time: real, nuEnergy: real,
                                          reqs: seq<Request>, draws: seq<seq<EventDraw>>)
    requires |draws| == |reqs|
    ensures |CellEvents(s, snDir, time, nuEnergy, reqs, draws)| == DrawCount(draws)
  {
    if |reqs| > 0 {
      var k := |reqs| - 1;
      CellEventCount(s, snDir, time, nuEnergy, reqs[..k], draws[..k]);
    }
  }

  /** Every record a cell books carries the (id, species) pair of one of
      its requests. */
  lemma {:induction false} CellEventsFromRequests(s: Setup, snDir: Vec3, time: real, nuEnergy: real,
                                                  reqs: seq<Request>, draws: seq<seq<EventDraw>>)
    requires |draws| == |reqs|
    ensures forall j :: 0 <= j < |CellEvents(s, snDir, time, nuEnergy, reqs, draws)| ==>
              Request(CellEvents(s, snDir, time, nuEnergy, reqs, draws)[j].rType,
                      CellEvents(s, snDir, time, nuEnergy, reqs, draws)[j].nuType) in reqs
  {
    if |reqs| > 0 {
      var k := |reqs| - 1;
      CellEventsFromRequests(s, snDir, time, nuEnergy, reqs[..k], draws[..k]);
      var prev := CellEvents(s, snDir, time, nuEnergy, reqs[..k], draws[..k]);
      var last := NewEvents(s, snDir, time, nuEnergy, reqs[k].nReact, reqs[k].nuType, draws[k]);
      var ev := prev + last;
      forall j | 0 <= j < |ev|
        ensures Request(ev[j].rType, ev[j].nuType) in reqs
      {
        if j < |prev| {
          assert ev[j] == prev[j];
          var q := Request(prev[j].rType, prev[j].nuType);
          assert q in reqs[..k];
          var i :| 0 <= i < k && reqs[..k][i] == q;
          assert reqs[i] == q;
        } else {
          assert ev[j] == last[j - |prev|];
          assert Request(ev[j].rType, ev[j].nuType) == reqs[k];
        }
      }
    }
  }

  /** So every record booked for a cell is consistent: its id is one the
      kinematics and the tally recognise and its species is that of the
      incident neutrino. */
  lemma CellEventsConsistent(s: Setup, snDir: Vec3, time: real, nuEnergy: real,
                             neutrinoType: int -> int, flagEvent: int, draws: seq<seq<EventDraw>>)
    requires |draws| == |BookedRequests(nuEnergy, neutrinoType, flagEvent)|
    ensures var ev := CellEvents(s, snDir, time, nuEnergy, BookedRequests(nuEnergy, neutrinoType, flagEvent), draws);
      forall j :: 0 <= j < |ev| ==> Consistent(neutrinoType, Request(ev[j].rType, ev[j].nuType))
  {
    var reqs := BookedRequests(nuEnergy, neutrinoType, flagEvent);
    CellRequestsConsistent(nuEnergy, neutrinoType);
    CellEventsFromRequests(s, snDir, time, nuEnergy, reqs, draws);
  }
}
