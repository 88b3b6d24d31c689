/** Final-state assembly of `determineKinematics`: for each reaction id the
    fixed particle template (species code, energy, momentum and the
    bookkeeping flags of the MCVECT bank), together with the direction
    rotation `convDirection`, the envelope scan of `determineAngleNuebarP`
    and one bounded form of its rejection loop.

    Energies and momenta are reals; `sqrt`, `sin`, `cos` and `acos` are
    uninterpreted functions supplied in `Physics`. Everything the source
    draws at random (lepton energy and angles, isotropic unit vectors)
    arrives as an input. */
module Kinematics {
  import opened Util
  import opened ReactionId

  datatype Vec3 = Vec3(x: real, y: real, z: real)

  function Scale(a: real, v: Vec3): Vec3
  {
    Vec3(a * v.x, a * v.y, a * v.z)
  }

  function Minus(u: Vec3, v: Vec3): Vec3
  {
    Vec3(u.x - v.x, u.y - v.y, u.z - v.z)
  }

  function Norm2(v: Vec3): real
  {
    v.x * v.x + v.y * v.y + v.z * v.z
  }

  /** Masses (MeV) of proton, neutron and electron, and the mathematical
      functions the source takes from the C library. */
  datatype Physics = Physics(mp: real, mn: real, me: real,
                             sqrt: real -> real, sin: real -> real,
                             cos: real -> real, acos: real -> real)

  function Sqrt(ph: Physics, x: real): real { ph.sqrt(x) }
  function Sin(ph: Physics, x: real): real { ph.sin(x) }
  function Cos(ph: Physics, x: real): real { ph.cos(x) }
  function Acos(ph: Physics, x: real): real { ph.acos(x) }

  /** The per-channel lookup tables of the oxygen reactions: number of
      neutrons for nue + O and nuebar + O, number of gammas for
      nuebar + O, and the neutral-current gamma energy per level. */
  datatype Tables = Tables(numNtNueO: int -> int, numNtNuebarO: int -> int,
                           numGmNuebarO: int -> int, eneGamN: int -> real)

  /** One row of the MCVECT particle bank: `ipvc` species code, `energy`,
      `pvc` momentum, and the origin / initial vertex / final-state /
      Cherenkov / final vertex flags. */
  datatype Track = Track(ipvc: int, energy: real, pvc: Vec3,
                         iorgvc: int, ivtivc: int, iflgvc: int, icrnvc: int, ivtfvc: int)

  /** What one event's kinematics consumes: the sampled lepton energy and
      angles, the threshold cosine of the elastic sampler, and the
      sequence of isotropic unit vectors of `determineNmomentum`. */
  datatype LeptonDraw = LeptonDraw(eEne: real, eTheta: real, ePhi: real)
  datatype KinDraw = KinDraw(lepton: LeptonDraw, costTh: real, iso: nat -> Vec3)

  /** The result of `determineKinematics`: the particle count `nvc`, the
      bank rows written, and whether the elastic sampler raised `iSkip`. */
  datatype Kin = Kin(nvc: int, tracks: seq<Track>, skip: bool)

  /** Energy of the neutral-current nucleon and the charged-current
      neutrons above their rest mass, and the charged-current gamma. */
  const NucleonKinetic: real := 0.5
  const CCGammaEnergy: real := 12.674

  // ---------------------------------------------------------------------
  // convDirection: rotate a direction given by (theta, phi) relative to
  // the neutrino into the detector frame with the 3x3 matrix Rmat

  predicate IsMat3(m: seq<seq<real>>)
  {
    |m| == 3 && forall i :: 0 <= i < 3 ==> |m[i]| == 3
  }

  /** The unit vector of polar angle theta and azimuth phi. */
  function OrigVec(ph: Physics, theta: real, phi: real): (o: seq<real>)
    ensures |o| == 3
  {
    [Sin(ph, theta) * Cos(ph, phi), Sin(ph, theta) * Sin(ph, phi), Cos(ph, theta)]
  }

  /** Sum of the first n products of a row with a vector, in loop order. */
  function PartialDot(row: seq<real>, o: seq<real>, n: nat): real
    requires n <= |row| && n <= |o|
  {
    if n == 0 then 0.0 else PartialDot(row, o, n - 1) + row[n - 1] * o[n - 1]
  }

  /** Matrix times vector. */
  function Rotate(m: seq<seq<real>>, o: seq<real>): Vec3
    requires IsMat3(m) && |o| == 3
  {
    Vec3(PartialDot(m[0], o, 3), PartialDot(m[1], o, 3), PartialDot(m[2], o, 3))
  }

  /** `convDirection`: accumulates `eDir[i] += Rmat[i][j] * origVec[j]`
      in a double loop over a three-element buffer. */
  method ConvDirection(ph: Physics, rmat: seq<seq<real>>, eTheta: real, ePhi: real)
    returns (d: Vec3)
    requires IsMat3(rmat)
    ensures d == Rotate(rmat, OrigVec(ph, eTheta, ePhi))
  {
    var origVec := OrigVec(ph, eTheta, ePhi);
    var eDir := new real[3];
    eDir[0], eDir[1], eDir[2] := 0.0, 0.0, 0.0;
    for i := 0 to 3
      invariant forall k :: 0 <= k < i ==> eDir[k] == PartialDot(rmat[k], origVec, 3)
      invariant forall k :: i <= k < 3 ==> eDir[k] == 0.0
    {
      AccumulateRow(eDir, rmat[i], origVec, i);
    }
    d := Vec3(eDir[0], eDir[1], eDir[2]);
  }

  /** The inner loop of `convDirection`: adds row `row` times `o` into
      `buf[i]`, term by term. */
  method AccumulateRow(buf: array<real>, row: seq<real>, o: seq<real>, i: nat)
    requires i < buf.Length && |row| == 3 && |o| == 3 && buf[i] == 0.0
    modifies buf
    ensures buf[i] == PartialDot(row, o, 3)
    ensures forall k :: 0 <= k < buf.Length && k != i ==> buf[k] == old(buf[k])
  {
    for j := 0 to 3
      invariant buf[i] == PartialDot(row, o, j)
      invariant forall k :: 0 <= k < buf.Length && k != i ==> buf[k] == old(buf[k])
    {
      buf[i] := buf[i] + row[j] * o[j];
    }
  }

  /** With the identity matrix (neutrino along +z) the rotation leaves the
      local direction unchanged. */
  lemma RotateIdentity(o: seq<real>)
    requires |o| == 3
    ensures Rotate([[1.0, 0.0, 0.0], [0.0, 1.0, 0.0], [0.0, 0.0, 1.0]], o) == Vec3(o[0], o[1], o[2])
  {
    Dot3([1.0, 0.0, 0.0], o);
    Dot3([0.0, 1.0, 0.0], o);
    Dot3([0.0, 0.0, 1.0], o);
  }

  lemma Dot3(row: seq<real>, o: seq<real>)
    requires |row| == 3 && |o| == 3
    ensures PartialDot(row, o, 3) == row[0] * o[0] + row[1] * o[1] + row[2] * o[2]
  {
    assert PartialDot(row, o, 1) == row[0] * o[0];
    assert PartialDot(row, o, 2) == row[0] * o[0] + row[1] * o[1];
  }

  // ---------------------------------------------------------------------
  // The particle templates

  /** Neutrino species code of flavour index 0..3 (nue, nuebar, nux,
      nuxbar); any other index leaves the code unset, which is 0 in a
      cleared bank. */
  function FlavorCode(k: int): (code: int)
    ensures 0 <= k < 4 ==> code == [12, -12, 14, -14][k]
    ensures !(0 <= k < 4) ==> code == 0
  {
    if k == 0 then 12 else if k == 1 then -12 else if k == 2 then 14 else if k == 3 then -14 else 0
  }

  /** The incident neutrino: not final, no Cherenkov light. */
  function Incident(code: int, nuEne: real, snDir: Vec3): Track
  {
    Track(code, nuEne, Scale(nuEne, snDir), 0, 1, -1, 0, 1)
  }

  /** A secondary with origin flag `iorg`: final, emits Cherenkov light. */
  function Secondary(code: int, energy: real, p: Vec3, iorg: int): Track
  {
    Track(code, energy, p, iorg, 1, 0, 1, 1)
  }

  /** The outgoing charged lepton: momentum sqrt(E^2 - Me^2) along the
      rotated sampled direction. */
  function LeptonTrack(ph: Physics, rmat: seq<seq<real>>, code: int, l: LeptonDraw): Track
    requires IsMat3(rmat)
  {
    Secondary(code, l.eEne, Scale(LeptonMomentum(ph, l), Rotate(rmat, OrigVec(ph, l.eTheta, l.ePhi))), 1)
  }

  /** sqrt(E^2 - Me^2) of the sampled lepton energy. */
  function LeptonMomentum(ph: Physics, l: LeptonDraw): real
  {
    Sqrt(ph, l.eEne * l.eEne - ph.me * ph.me)
  }

  /** Momentum of a nucleon with 0.5 MeV kinetic energy. */
  function NucleonMomentum(ph: Physics, mass: real): real
  {
    Sqrt(ph, (NucleonKinetic + mass) * (NucleonKinetic + mass) - mass * mass)
  }

  /** A neutron of a charged-current reaction along isotropic direction u. */
  function CCNeutron(ph: Physics, u: Vec3): Track
  {
    Secondary(2112, NucleonKinetic + ph.mn, Scale(NucleonMomentum(ph, ph.mn), u), 0)
  }

  /** The neutrons emitted after a charged-current reaction: as many as the
      table says (none for a count that is not positive), neutron j along
      the j-th isotropic draw. */
  function CCNeutrons(ph: Physics, iso: nat -> Vec3, n: int): (r: seq<Track>)
    ensures |r| == (if n > 0 then n else 0)
    ensures forall j :: 0 <= j < |r| ==> r[j] == CCNeutron(ph, iso(j))
  {
    if n <= 0 then [] else CCNeutrons(ph, iso, n - 1) + [CCNeutron(ph, iso(n - 1))]
  }

  /** sqrt(|p|^2 + m^2). */
  function OnShellEnergy(ph: Physics, p: Vec3, mass: real): real
  {
    Sqrt(ph, Norm2(p) + mass * mass)
  }

  /** Inverse beta decay: antineutrino, proton at rest, positron, and a
      neutron that takes the momentum balance. */
  function IbdState(ph: Physics, rmat: seq<seq<real>>, nuEne: real, snDir: Vec3, l: LeptonDraw): Kin
    requires IsMat3(rmat)
  {
    var nu := Incident(-12, nuEne, snDir);
    var proton := Track(2212, ph.mp, Vec3(0.0, 0.0, 0.0), 0, 1, -1, 0, 1);
    var positron := LeptonTrack(ph, rmat, -11, l);
    var pn := Minus(nu.pvc, positron.pvc);
    var neutron := Secondary(2112, OnShellEnergy(ph, pn, ph.mn), pn, 1);
    Kin(4, [nu, proton, positron, neutron], false)
  }

  /** Elastic scattering on an electron. The electron row is written even
      when the sampler gives up (|costTh| > 1); the source then leaves the
      lepton values uninitialised, here they are the given draw. */
  function ElasticState(ph: Physics, rmat: seq<seq<real>>, flavor: int, nuEne: real,
                        snDir: Vec3, d: KinDraw): Kin
    requires IsMat3(rmat)
  {
    var skip := d.costTh > 1.0 || d.costTh < -1.0;
    Kin(2, [Incident(FlavorCode(flavor - 1), nuEne, snDir), LeptonTrack(ph, rmat, 11, d.lepton)], skip)
  }

  /** Neutral current on oxygen: neutrino, a proton (whose momentum is the
      unscaled unit vector, as written) or a neutron, then a gamma of the
      tabulated energy. `nvc` is 3 even when `particle` is neither. */
  function NCState(ph: Physics, tb: Tables, excit: int, particle: int, channel: int,
                   nuEne: real, snDir: Vec3, iso: nat -> Vec3): Kin
  {
    var nu := Incident(FlavorCode(excit), nuEne, snDir);
    var eg := tb.eneGamN(channel);
    var gamma := Secondary(22, eg, Scale(eg, iso(1)), 1);
    if particle == 0 then
      Kin(3, [nu, Secondary(2212, ph.mp + NucleonKinetic, iso(0), 1), gamma], false)
    else if particle == 1 then
      Kin(3, [nu, Secondary(2112, NucleonKinetic + ph.mn, Scale(NucleonMomentum(ph, ph.mn), iso(0)), 1), gamma], false)
    else
      Kin(3, [nu], false)
  }

  /** Whether any of the three tables lists an extra particle for a decay
      channel: the guard around all charged-current secondaries. */
  predicate TableGuard(tb: Tables, channel: int)
  {
    tb.numNtNueO(channel) != 0 || tb.numNtNuebarO(channel) != 0 || tb.numGmNuebarO(channel) != 0
  }

  /** The secondaries after a charged-current reaction. Origin flag 0, as
      written, unlike the other secondaries. */
  function CCSecondaries(ph: Physics, tb: Tables, reaction: int, exState: int, channel: int,
                         iso: nat -> Vec3): seq<Track>
  {
    if !TableGuard(tb, channel) || exState == SubExState then []
    else if reaction == 0 then CCNeutrons(ph, iso, tb.numNtNueO(channel))
    else if reaction == 1 && channel != 0 then CCNeutrons(ph, iso, tb.numNtNuebarO(channel))
    else if reaction == 1 then [Secondary(22, CCGammaEnergy, Scale(CCGammaEnergy, iso(0)), 0)]
    else []
  }

  /** Charged current on oxygen: neutrino, electron or positron, then the
      table-driven secondaries. */
  function CCState(ph: Physics, tb: Tables, rmat: seq<seq<real>>, reaction: int, exState: int,
                   channel: int, nuEne: real, snDir: Vec3, d: KinDraw): Kin
    requires IsMat3(rmat)
  {
    var nuCode := if reaction == 0 then 12 else if reaction == 1 then -12 else 0;
    var lepCode := if reaction == 0 then 11 else if reaction == 1 then -11 else 0;
    var sec := CCSecondaries(ph, tb, reaction, exState, channel, d.iso);
    Kin(2 + |sec|, [Incident(nuCode, nuEne, snDir), LeptonTrack(ph, rmat, lepCode, d.lepton)] + sec, false)
  }

  /** `determineKinematics` as a function of the id and the draws. */
  function FinalState(ph: Physics, tb: Tables, rmat: seq<seq<real>>, nReact: int, nuEne: real,
                      snDir: Vec3, d: KinDraw): Kin
    requires IsMat3(rmat)
  {
    match Decode(nReact)
    case InverseBeta => IbdState(ph, rmat, nuEne, snDir, d.lepton)
    case Elastic(f) => ElasticState(ph, rmat, f, nuEne, snDir, d)
    case NeutralCurrent(excit, particle, channel) =>
      NCState(ph, tb, excit, particle, channel, nuEne, snDir, d.iso)
    case ChargedCurrent(reaction, _, exState, channel) =>
      CCState(ph, tb, rmat, reaction, exState, channel, nuEne, snDir, d)
    case Unrecognized => Kin(0, [], false)
  }

  // ---------------------------------------------------------------------
  // Properties of the templates

  /** Inverse beta decay: four particles -12, 2212, -11, 2112; the proton
      at rest with energy Mp; the neutron momentum is the neutrino momentum
      minus the positron momentum componentwise and its energy is
      sqrt(|p|^2 + Mn^2); the two initial particles are flagged not final
      and dark, the two products final and visible. */
  lemma IbdTemplate(ph: Physics, tb: Tables, rmat: seq<seq<real>>, nuEne: real, snDir: Vec3, d: KinDraw)
    requires IsMat3(rmat)
    ensures var k := FinalState(ph, tb, rmat, 0, nuEne, snDir, d);
      && k.nvc == 4 == |k.tracks| && !k.skip
      && k.tracks[0].ipvc == -12 && k.tracks[1].ipvc == 2212
      && k.tracks[2].ipvc == -11 && k.tracks[3].ipvc == 2112
      && k.tracks[0].energy == nuEne && k.tracks[0].pvc == Scale(nuEne, snDir)
      && k.tracks[1].energy == ph.mp && k.tracks[1].pvc == Vec3(0.0, 0.0, 0.0)
      && k.tracks[3].pvc.x == k.tracks[0].pvc.x - k.tracks[2].pvc.x
      && k.tracks[3].pvc.y == k.tracks[0].pvc.y - k.tracks[2].pvc.y
      && k.tracks[3].pvc.z == k.tracks[0].pvc.z - k.tracks[2].pvc.z
      && k.tracks[3].energy == OnShellEnergy(ph, k.tracks[3].pvc, ph.mn)
      && (forall i :: 0 <= i < 2 ==> k.tracks[i].iflgvc == -1 && k.tracks[i].icrnvc == 0)
      && (forall i :: 2 <= i < 4 ==> k.tracks[i].iflgvc == 0 && k.tracks[i].icrnvc == 1)
  {
  }

  /** Elastic scattering: two particles, the flavour code of ids 1..4, an
      electron, and the skip flag raised exactly when |costTh| > 1. */
  lemma ElasticTemplate(ph: Physics, tb: Tables, rmat: seq<seq<real>>, id: int, nuEne: real,
                        snDir: Vec3, d: KinDraw)
    requires IsMat3(rmat) && 1 <= id <= 4
    ensures var k := FinalState(ph, tb, rmat, id, nuEne, snDir, d);
      && k.nvc == 2 == |k.tracks|
      && k.tracks[0].ipvc == [12, -12, 14, -14][id - 1] && k.tracks[1].ipvc == 11
      && (k.skip <==> (d.costTh > 1.0 || d.costTh < -1.0))
  {
  }

  /** Only the elastic sampler can raise the skip flag. */
  lemma SkipOnlyElastic(ph: Physics, tb: Tables, rmat: seq<seq<real>>, id: int, nuEne: real,
                        snDir: Vec3, d: KinDraw)
    requires IsMat3(rmat)
    requires FinalState(ph, tb, rmat, id, nuEne, snDir, d).skip
    ensures 1 <= id <= 4 && (d.costTh > 1.0 || d.costTh < -1.0)
  {
  }

  /** Neutral current: for every enumerated id, three particles: the
      flavour code of `rcn`, then a proton of energy Mp + 0.5 whose momentum
      is the unscaled isotropic vector or a neutron of energy Mn + 0.5, then
      a gamma of energy eneGamN[level] with momentum direction x energy. */
  lemma {:induction false} NCTemplate(ph: Physics, tb: Tables, rmat: seq<seq<real>>, rcn: int,
                                      excit: int, exEnergy: int, nuEne: real, snDir: Vec3, d: KinDraw)
    requires IsMat3(rmat) && ValidNC(rcn, excit, exEnergy)
    ensures var k := FinalState(ph, tb, rmat, EncodeNC(rcn, excit, exEnergy), nuEne, snDir, d);
      && k.nvc == 3 == |k.tracks| && !k.skip
      && k.tracks[0] == Incident(FlavorCode(rcn), nuEne, snDir)
      && (excit == 0 ==> k.tracks[1].ipvc == 2212 && k.tracks[1].energy == ph.mp + 0.5
                         && k.tracks[1].pvc == d.iso(0))
      && (excit == 1 ==> k.tracks[1].ipvc == 2112 && k.tracks[1].energy == ph.mn + 0.5
                         && k.tracks[1].pvc == Scale(NucleonMomentum(ph, ph.mn), d.iso(0)))
      && k.tracks[2].ipvc == 22 && k.tracks[2].energy == tb.eneGamN(exEnergy)
      && k.tracks[2].pvc == Scale(tb.eneGamN(exEnergy), d.iso(1))
      && k.tracks[1].iorgvc == 1 && k.tracks[2].iorgvc == 1
  {
    NCRoundTrip(rcn, excit, exEnergy);
  }

  /** Charged current, aggregate sub-reaction: exactly the neutrino and the
      charged lepton (12 and 11 for nue, -12 and -11 for nuebar). */
  lemma {:induction false} CCSubTemplate(ph: Physics, tb: Tables, rmat: seq<seq<real>>, rcn: int,
                                         exEnergy: int, nuEne: real, snDir: Vec3, d: KinDraw)
    requires IsMat3(rmat) && ValidSub(rcn, exEnergy)
    ensures var k := FinalState(ph, tb, rmat, EncodeSub(rcn, exEnergy), nuEne, snDir, d);
      && k.nvc == 2 == |k.tracks| && !k.skip
      && k.tracks[0].ipvc == (if rcn == 0 then 12 else -12)
      && k.tracks[1].ipvc == (if rcn == 0 then 11 else -11)
  {
    SubRoundTrip(rcn, exEnergy);
  }

  /** The number of secondaries of an ordinary charged-current reaction. */
  function CCSecondaryCount(tb: Tables, rcn: int, ch: int): nat
  {
    if !TableGuard(tb, ch) then 0
    else if rcn == 0 then (if tb.numNtNueO(ch) > 0 then tb.numNtNueO(ch) else 0)
    else if ch != 0 then (if tb.numNtNuebarO(ch) > 0 then tb.numNtNuebarO(ch) else 0)
    else 1
  }

  /** Charged current, ordinary channels: neutrino and lepton, then, when
      the table guard holds, numNtNueO[ch] neutrons for nue, numNtNuebarO[ch]
      neutrons for nuebar with ch != 0, or one 12.674 MeV gamma for nuebar
      with ch == 0; every secondary has origin flag 0. */
  lemma {:induction false} CCTemplate(ph: Physics, tb: Tables, rmat: seq<seq<real>>, rcn: int,
                                      exEnergy: int, exState: int, ch: int, nuEne: real,
                                      snDir: Vec3, d: KinDraw)
    requires IsMat3(rmat) && ValidCC(rcn, exEnergy, exState, ch)
    ensures var k := FinalState(ph, tb, rmat, EncodeCC(rcn, exEnergy, exState, ch), nuEne, snDir, d);
      && k.nvc == |k.tracks| == 2 + CCSecondaryCount(tb, rcn, ch) && !k.skip
      && k.tracks[0].ipvc == (if rcn == 0 then 12 else -12)
      && k.tracks[1].ipvc == (if rcn == 0 then 11 else -11)
      && (forall i :: 2 <= i < |k.tracks| ==> k.tracks[i].iorgvc == 0 && k.tracks[i].iflgvc == 0)
      && (forall i :: 2 <= i < |k.tracks| ==>
            k.tracks[i] == (if rcn == 1 && ch == 0
                            then Secondary(22, CCGammaEnergy, Scale(CCGammaEnergy, d.iso(0)), 0)
                            else CCNeutron(ph, d.iso(i - 2))))
  {
    CCRoundTrip(rcn, exEnergy, exState, ch);
    var k := FinalState(ph, tb, rmat, EncodeCC(rcn, exEnergy, exState, ch), nuEne, snDir, d);
    assert k == CCState(ph, tb, rmat, rcn, exState, ch, nuEne, snDir, d);
    var sec := CCSecondaries(ph, tb, rcn, exState, ch, d.iso);
    CCSecondariesShape(ph, tb, rcn, exState, ch, d.iso);
    assert k.tracks[2..] == sec;
  }

  /** The secondaries alone: their number, origin and final-state flags
      and their content. */
  lemma CCSecondariesShape(ph: Physics, tb: Tables, rcn: int, exState: int, ch: int, iso: nat -> Vec3)
    requires 0 <= rcn < 2 && exState != SubExState
    ensures var sec := CCSecondaries(ph, tb, rcn, exState, ch, iso);
      && |sec| == CCSecondaryCount(tb, rcn, ch)
      && (forall i :: 0 <= i < |sec| ==> sec[i].iorgvc == 0 && sec[i].iflgvc == 0)
      && (forall i :: 0 <= i < |sec| ==>
            sec[i] == (if rcn == 1 && ch == 0
                       then Secondary(22, CCGammaEnergy, Scale(CCGammaEnergy, iso(0)), 0)
                       else CCNeutron(ph, iso(i))))
  {
  }

  /** Ids outside the four ranges write nothing. */
  lemma UnrecognizedWritesNothing(ph: Physics, tb: Tables, rmat: seq<seq<real>>, id: int,
                                  nuEne: real, snDir: Vec3, d: KinDraw)
    requires IsMat3(rmat) && (id < 0 || 5 <= id <= 1000)
    ensures FinalState(ph, tb, rmat, id, nuEne, snDir, d) == Kin(0, [], false)
  {
  }

  // ---------------------------------------------------------------------
  // The angle samplers of determineAngleNuebarP and determineAngleElastic

  /** `getRandomReal(lo, hi)` for a uniform draw u in [0, 1]. */
  function UniformDraw(lo: real, hi: real, u: real): real
  {
    lo + (hi - lo) * u
  }

  lemma UniformDrawBounds(lo: real, hi: real, u: real)
    requires lo <= hi && 0.0 <= u <= 1.0
    ensures lo <= UniformDraw(lo, hi, u) <= hi
  {
    MulNonneg(hi - lo, u);
    MulNonneg(hi - lo, 1.0 - u);
  }

  lemma MulNonneg(a: real, b: real)
    requires a >= 0.0 && b >= 0.0
    ensures a * b >= 0.0
  {
  }

  /** The cosine grid of the envelope scan: bin centres. */
  function GridCos(costMin: real, costBinSize: real, i: int): real
  {
    costMin + costBinSize * (i as real + 0.5)
  }

  /** The envelope of `determineAngleNuebarP`: the largest differential
      probability over the cosine grid, starting from 0. */
  method EnvelopeMax(dcs: real -> real, costMin: real, costBinSize: real, costNBins: nat)
    returns (maxP: real)
    ensures maxP >= 0.0
    ensures forall i :: 0 <= i < costNBins ==> dcs(GridCos(costMin, costBinSize, i)) <= maxP
    ensures maxP == 0.0 || exists i :: 0 <= i < costNBins && maxP == dcs(GridCos(costMin, costBinSize, i))
  {
    maxP := 0.0;
    for iCost := 0 to costNBins
      invariant maxP >= 0.0
      invariant forall i :: 0 <= i < iCost ==> dcs(GridCos(costMin, costBinSize, i)) <= maxP
      invariant maxP == 0.0 || exists i :: 0 <= i < iCost && maxP == dcs(GridCos(costMin, costBinSize, i))
    {
      var p := dcs(GridCos(costMin, costBinSize, iCost));
      if p > maxP {
        maxP := p;
      }
    }
  }

  /** One proposal of a rejection loop: the uniform draws for the cosine,
      the height x and the azimuth. */
  datatype Proposal = Proposal(uCos: real, uX: real, uPhi: real)

  /** Whether proposal `q` is accepted: x = maxP * uX lies below the
      density at cost = uniform in [lo, hi]. */
  predicate Accepts(dcs: real -> real, maxP: real, lo: real, hi: real, q: Proposal)
  {
    UniformDraw(0.0, maxP, q.uX) < dcs(UniformDraw(lo, hi, q.uCos))
  }

  /** The rejection loop, bounded by the proposals supplied: the index of
      the first accepted proposal, or None if all are rejected. */
  method FirstAccepted(dcs: real -> real, maxP: real, lo: real, hi: real, qs: seq<Proposal>)
    returns (k: Option<nat>)
    ensures k.Some? ==> k.value < |qs| && Accepts(dcs, maxP, lo, hi, qs[k.value])
    ensures k.Some? ==> forall j :: 0 <= j < k.value ==> !Accepts(dcs, maxP, lo, hi, qs[j])
    ensures k.None? ==> forall j :: 0 <= j < |qs| ==> !Accepts(dcs, maxP, lo, hi, qs[j])
  {
    var i := 0;
    while i < |qs|
      invariant 0 <= i <= |qs|
      invariant forall j :: 0 <= j < i ==> !Accepts(dcs, maxP, lo, hi, qs[j])
    {
      if Accepts(dcs, maxP, lo, hi, qs[i]) {
        return Some(i);
      }
      i := i + 1;
    }
    return None;
  }

  /** `determineAngleNuebarP` with the rejection loop bounded by the
      proposals supplied: scan the envelope over the cosine grid, then take
      the first accepted proposal and return its energy and angles. */
  method SampleNuebarP(ph: Physics, dcs: real -> real, eEneAt: real -> real,
                       costMin: real, costMax: real, costBinSize: real, costNBins: nat,
                       qs: seq<Proposal>)
    returns (k: Option<nat>, l: LeptonDraw)
    ensures k.Some? ==> k.value < |qs|
    ensures k.Some? ==> forall j :: 0 <= j < k.value ==>
              UniformDraw(0.0, EnvelopeOf(dcs, costMin, costBinSize, costNBins), qs[j].uX)
                >= dcs(UniformDraw(costMin, costMax, qs[j].uCos))
    ensures k.Some? ==>
              var cost := UniformDraw(costMin, costMax, qs[k.value].uCos);
              && UniformDraw(0.0, EnvelopeOf(dcs, costMin, costBinSize, costNBins), qs[k.value].uX) < dcs(cost)
              && l == LeptonDraw(eEneAt(cost), Acos(ph, cost), UniformDraw(-Pi, Pi, qs[k.value].uPhi))
    ensures k.None? ==> forall j :: 0 <= j < |qs| ==>
              UniformDraw(0.0, EnvelopeOf(dcs, costMin, costBinSize, costNBins), qs[j].uX)
                >= dcs(UniformDraw(costMin, costMax, qs[j].uCos))
  {
    var maxP := EnvelopeMax(dcs, costMin, costBinSize, costNBins);
    EnvelopeIsMax(dcs, costMin, costBinSize, costNBins, maxP);
    k := FirstAccepted(dcs, maxP, costMin, costMax, qs);
    l := LeptonDraw(0.0, 0.0, 0.0);
    if k.Some? {
      var cost := UniformDraw(costMin, costMax, qs[k.value].uCos);
      l := LeptonDraw(eEneAt(cost), Acos(ph, cost), UniformDraw(-Pi, Pi, qs[k.value].uPhi));
    }
  }

  const Pi: real := 3.14159265358979323846

  /** The envelope as a function: the maximum of 0 and the scanned values. */
  function EnvelopeOf(dcs: real -> real, costMin: real, costBinSize: real, n: nat): real
  {
    if n == 0 then 0.0
    else
      var m := EnvelopeOf(dcs, costMin, costBinSize, n - 1);
      var p := dcs(GridCos(costMin, costBinSize, n - 1));
      if p > m then p else m
  }

  /** The three properties of `EnvelopeMax` determine its result. */
  lemma {:induction false} EnvelopeIsMax(dcs: real -> real, costMin: real, costBinSize: real, n: nat, m: real)
    requires m >= 0.0
    requires forall i :: 0 <= i < n ==> dcs(GridCos(costMin, costBinSize, i)) <= m
    requires m == 0.0 || exists i :: 0 <= i < n && m == dcs(GridCos(costMin, costBinSize, i))
    ensures m == EnvelopeOf(dcs, costMin, costBinSize, n)
  {
    EnvelopeOfIsMax(dcs, costMin, costBinSize, n);
    var e := EnvelopeOf(dcs, costMin, costBinSize, n);
    if m != 0.0 {
      var i :| 0 <= i < n && m == dcs(GridCos(costMin, costBinSize, i));
      assert m <= e;
    }
  }

  lemma {:induction false} EnvelopeOfIsMax(dcs: real -> real, costMin: real, costBinSize: real, n: nat)
    ensures EnvelopeOf(dcs, costMin, costBinSize, n) >= 0.0
    ensures forall i :: 0 <= i < n ==> dcs(GridCos(costMin, costBinSize, i)) <= EnvelopeOf(dcs, costMin, costBinSize, n)
    ensures EnvelopeOf(dcs, costMin, costBinSize, n) == 0.0 ||
            exists i :: 0 <= i < n && EnvelopeOf(dcs, costMin, costBinSize, n) == dcs(GridCos(costMin, costBinSize, i))
  {
    if n > 0 {
      EnvelopeOfIsMax(dcs, costMin, costBinSize, n - 1);
      var m := EnvelopeOf(dcs, costMin, costBinSize, n - 1);
      if m != 0.0 && dcs(GridCos(costMin, costBinSize, n - 1)) <= m {
        var i :| 0 <= i < n - 1 && m == dcs(GridCos(costMin, costBinSize, i));
        assert 0 <= i < n;
      }
    }
  }

  /** A density that is flat at the envelope accepts the first proposal
      whose height draw lies below 1: the acceptance rate is 1. */
  lemma FlatDensityAcceptsFirst(c: real, lo: real, hi: real, q: Proposal)
    requires c > 0.0 && 0.0 <= q.uX < 1.0
    ensures Accepts((_: real) => c, c, lo, hi, q)
  {
    var dens := (_: real) => c;
    assert dens(UniformDraw(lo, hi, q.uCos)) == c;
    assert UniformDraw(0.0, c, q.uX) == c * q.uX;
    MulNonneg(c, 1.0 - q.uX);
    assert c * q.uX <= c;
    assert c * q.uX != c;
  }

  /** `determineAngleElastic`: when the threshold cosine is unphysical it
      raises the skip flag and draws nothing; otherwise it samples the
      cosine in [costTh, 1] with the bounded rejection loop. */
  method SampleElastic(dens: real -> real, eEneAt: real -> real, ph: Physics, maxP: real,
                       costTh: real, qs: seq<Proposal>)
    returns (skip: bool, k: Option<nat>, l: LeptonDraw)
    ensures skip <==> (costTh > 1.0 || costTh < -1.0)
    ensures skip ==> k.None?
    ensures k.Some? ==> k.value < |qs| && Accepts(dens, maxP, costTh, 1.0, qs[k.value])
    ensures k.Some? ==> forall j :: 0 <= j < k.value ==> !Accepts(dens, maxP, costTh, 1.0, qs[j])
    ensures k.Some? ==> var cost := UniformDraw(costTh, 1.0, qs[k.value].uCos);
              l == LeptonDraw(eEneAt(cost), Acos(ph, cost), UniformDraw(-Pi, Pi, qs[k.value].uPhi))
    ensures !skip && k.None? ==> forall j :: 0 <= j < |qs| ==> !Accepts(dens, maxP, costTh, 1.0, qs[j])
  {
    l := LeptonDraw(0.0, 0.0, 0.0);
    if costTh > 1.0 || costTh < -1.0 {
      return true, None, l;
    }
    skip := false;
    k := FirstAccepted(dens, maxP, costTh, 1.0, qs);
    if k.Some? {
      var cost := UniformDraw(costTh, 1.0, qs[k.value].uCos);
      l := LeptonDraw(eEneAt(cost), Acos(ph, cost), UniformDraw(-Pi, Pi, qs[k.value].uPhi));
    }
  }
}
