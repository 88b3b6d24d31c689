/** The event generator of the supernova burst: `MakeEvent` books event
    records for one (time, energy, reaction) cell, `determinePosition`
    places their vertices, `determineKinematics` writes the particle bank
    of each record and `FillEvent` walks the records, fills the non-skipped
    ones into numbered output files and tallies them per reaction.

    The Poisson count and all uniform draws are inputs; the ROOT tree is
    the sequence `output` of filled entries. */
module EventGen {
  import opened Util
  import opened ReactionId
  import opened Kinematics

  // ---------------------------------------------------------------------
  // Vertex placement

  /** The volume a vertex is drawn in; `OtherVolume` is any other value of
      the source's integer switch. */
  datatype PositionType = InnerFV | InnerID | EntireTank | OtherVolume

  /** Radius and half-height (cm) of the inner detector and of the whole
      tank. */
  datatype Geometry = Geometry(rintk: real, zpintk: real, ditktk: real, zptktk: real)

  /** A vertical cylinder centred on the origin. */
  datatype Cylinder = Cylinder(radius: real, halfHeight: real)

  /** The cylinder a position type selects: the fiducial volume is the
      inner detector shrunk by 200 cm, the default is the inner detector. */
  function PositionRange(geo: Geometry, t: PositionType): Cylinder
  {
    match t
    case InnerFV => Cylinder(geo.rintk - 200.0, geo.zpintk - 200.0)
    case InnerID => Cylinder(geo.rintk, geo.zpintk)
    case EntireTank => Cylinder(geo.ditktk, geo.zptktk)
    case OtherVolume => Cylinder(geo.rintk, geo.zpintk)
  }

  /** `determinePosition`: uniform in area (r^2 = u R^2), uniform in azimuth
      and uniform in height over [-H, H]. */
  function DeterminePosition(ph: Physics, geo: Geometry, t: PositionType,
                             uR: real, uPhi: real, uZ: real): Vec3
  {
    var cyl := PositionRange(geo, t);
    var r := Sqrt(ph, AreaDraw(uR, cyl.radius));
    var phi := uPhi * 2.0 * Pi;
    Vec3(r * Cos(ph, phi), r * Sin(ph, phi), -cyl.halfHeight + uZ * 2.0 * cyl.halfHeight)
  }

  /** The squared radius u R^2 of a vertex uniform in area. */
  function AreaDraw(u: real, radius: real): real
  {
    u * radius * radius
  }

  /** The laws of the C library functions the bounds rely on. */
  ghost predicate SqrtLaw(ph: Physics)
  {
    forall a: real :: a >= 0.0 ==> Sqrt(ph, a) * Sqrt(ph, a) == a
  }

  ghost predicate TrigLaw(ph: Physics)
  {
    forall t: real :: Sin(ph, t) * Sin(ph, t) + Cos(ph, t) * Cos(ph, t) == 1.0
  }

  /** With draws in [0, 1] the vertex lies in the selected cylinder: the
      squared transverse radius is u R^2, between 0 and R^2, and the height
      lies in [-H, H]. */
  lemma PositionBounds(ph: Physics, geo: Geometry, t: PositionType, uR: real, uPhi: real, uZ: real)
    requires 0.0 <= uR <= 1.0 && 0.0 <= uZ <= 1.0
    requires SqrtLaw(ph) && TrigLaw(ph)
    ensures var rr := PositionRange(geo, t).radius;
            var hh := PositionRange(geo, t).halfHeight;
            var p := DeterminePosition(ph, geo, t, uR, uPhi, uZ);
            && p.x * p.x + p.y * p.y == uR * rr * rr
            && 0.0 <= p.x * p.x + p.y * p.y <= rr * rr
            && (hh >= 0.0 ==> -hh <= p.z <= hh)
  {
    PositionRadius(ph, geo, t, uR, uPhi, uZ);
    PositionHeight(ph, geo, t, uR, uPhi, uZ);
  }

  lemma PositionRadius(ph: Physics, geo: Geometry, t: PositionType, uR: real, uPhi: real, uZ: real)
    requires 0.0 <= uR <= 1.0
    requires SqrtLaw(ph) && TrigLaw(ph)
    ensures var rr := PositionRange(geo, t).radius;
            var p := DeterminePosition(ph, geo, t, uR, uPhi, uZ);
            && p.x * p.x + p.y * p.y == uR * rr * rr
            && 0.0 <= p.x * p.x + p.y * p.y <= rr * rr
  {
    var cyl := PositionRange(geo, t);
    var r := Sqrt(ph, AreaDraw(uR, cyl.radius));
    var phi := uPhi * 2.0 * Pi;
    AreaBounds(uR, cyl.radius);
    DiskBounds(r, Cos(ph, phi), Sin(ph, phi), uR, cyl.radius);
  }

  lemma PositionHeight(ph: Physics, geo: Geometry, t: PositionType, uR: real, uPhi: real, uZ: real)
    requires 0.0 <= uZ <= 1.0
    ensures var hh := PositionRange(geo, t).halfHeight;
            var p := DeterminePosition(ph, geo, t, uR, uPhi, uZ);
            hh >= 0.0 ==> -hh <= p.z <= hh
  {
    var hh := PositionRange(geo, t).halfHeight;
    assert DeterminePosition(ph, geo, t, uR, uPhi, uZ).z == -hh + uZ * 2.0 * hh;
    HeightBounds(uZ, hh);
  }

  lemma DiskBounds(r: real, c: real, s: real, u: real, rr: real)
    requires 0.0 <= u <= 1.0 && r * r == AreaDraw(u, rr) && s * s + c * c == 1.0
    ensures (r * c) * (r * c) + (r * s) * (r * s) == u * rr * rr
    ensures 0.0 <= (r * c) * (r * c) + (r * s) * (r * s) <= rr * rr
  {
    SumOfSquares(r, c, s);
    AreaBounds(u, rr);
  }

  lemma AreaBounds(u: real, rr: real)
    requires 0.0 <= u <= 1.0
    ensures 0.0 <= AreaDraw(u, rr) <= rr * rr
  {
    var rsq := rr * rr;
    SquareNonneg(rr);
    assert AreaDraw(u, rr) == u * rsq;
    MulNonneg(u, rsq);
    MulNonneg(1.0 - u, rsq);
  }

  lemma HeightBounds(u: real, hh: real)
    requires 0.0 <= u <= 1.0
    ensures hh >= 0.0 ==> -hh <= -hh + u * 2.0 * hh <= hh
  {
    if hh >= 0.0 {
      MulNonneg(u, 2.0 * hh);
      MulNonneg(1.0 - u, 2.0 * hh);
    }
  }

  lemma SquareNonneg(a: real)
    ensures a * a >= 0.0
  {
    if a < 0.0 {
      MulNonneg(-a, -a);
    } else {
      MulNonneg(a, a);
    }
  }

  lemma SumOfSquares(r: real, c: real, s: real)
    requires s * s + c * c == 1.0
    ensures (r * c) * (r * c) + (r * s) * (r * s) == r * r
  {
    assert (r * c) * (r * c) + (r * s) * (r * s) == (r * r) * (c * c + s * s);
  }

  // ---------------------------------------------------------------------
  // Event records

  /** `SNEvtInfo`: reaction id, time, neutrino species, energy, direction
      and interaction vertex of one booked event. */
  datatype EventInfo = EventInfo(rType: int, rTime: real, nuType: int, nuEne: real,
                                 nuDir: Vec3, rVtx: Vec3)

  /** The uniform draws one booked event consumes. */
  datatype EventDraw = EventDraw(uEne: real, uTime: real, uR: real, uPhi: real, uZ: real)

  predicate UnitDraw(d: EventDraw)
  {
    0.0 <= d.uEne <= 1.0 && 0.0 <= d.uTime <= 1.0 && 0.0 <= d.uR <= 1.0 && 0.0 <= d.uZ <= 1.0
  }

  /** What the generator is configured with: physics constants and tables,
      detector geometry, the bin widths of the time and energy grids, and
      the number of events per output file. */
  datatype Setup = Setup(ph: Physics, tb: Tables, geo: Geometry, tBinSize: real,
                         nuEneBinSize: real, neventFile: int)

  /** One record of `MakeEvent`: energy and time uniform within the cell,
      vertex in the inner detector, direction of the supernova. */
  function NewEvent(s: Setup, snDir: Vec3, time: real, nuEnergy: real, nReact: int,
                    nuType: int, d: EventDraw): EventInfo
  {
    var nuEne := UniformDraw(nuEnergy - s.nuEneBinSize / 2.0, nuEnergy + s.nuEneBinSize / 2.0, d.uEne);
    var tReact := UniformDraw(time - s.tBinSize / 2.0, time + s.tBinSize / 2.0, d.uTime);
    var vtx := DeterminePosition(s.ph, s.geo, InnerID, d.uR, d.uPhi, d.uZ);
    EventInfo(nReact, tReact, nuType, nuEne, snDir, vtx)
  }

  /** The records booked for a list of draws, one per draw, in order. */
  function NewEvents(s: Setup, snDir: Vec3, time: real, nuEnergy: real, nReact: int,
                     nuType: int, ds: seq<EventDraw>): (r: seq<EventInfo>)
    ensures |r| == |ds|
    ensures forall i :: 0 <= i < |ds| ==> r[i] == NewEvent(s, snDir, time, nuEnergy, nReact, nuType, ds[i])
  {
    if |ds| == 0 then []
    else NewEvents(s, snDir, time, nuEnergy, nReact, nuType, ds[..|ds| - 1])
         + [NewEvent(s, snDir, time, nuEnergy, nReact, nuType, ds[|ds| - 1])]
  }

  /** Every booked record carries the cell's reaction id, species and the
      supernova direction; with draws in [0, 1] and non-negative bin widths
      its time and energy lie within the cell and its vertex within the
      inner detector. */
  lemma {:induction false} NewEventBounds(s: Setup, snDir: Vec3, time: real, nuEnergy: real,
                                          nReact: int, nuType: int, d: EventDraw)
    requires UnitDraw(d) && s.tBinSize >= 0.0 && s.nuEneBinSize >= 0.0
    requires SqrtLaw(s.ph) && TrigLaw(s.ph) && s.geo.zpintk >= 0.0
    ensures var e := NewEvent(s, snDir, time, nuEnergy, nReact, nuType, d);
      && e.rType == nReact && e.nuType == nuType && e.nuDir == snDir
      && time - s.tBinSize / 2.0 <= e.rTime <= time + s.tBinSize / 2.0
      && nuEnergy - s.nuEneBinSize / 2.0 <= e.nuEne <= nuEnergy + s.nuEneBinSize / 2.0
      && e.rVtx.x * e.rVtx.x + e.rVtx.y * e.rVtx.y <= s.geo.rintk * s.geo.rintk
      && -s.geo.zpintk <= e.rVtx.z <= s.geo.zpintk
  {
    UniformDrawBounds(nuEnergy - s.nuEneBinSize / 2.0, nuEnergy + s.nuEneBinSize / 2.0, d.uEne);
    UniformDrawBounds(time - s.tBinSize / 2.0, time + s.tBinSize / 2.0, d.uTime);
    PositionBounds(s.ph, s.geo, InnerID, d.uR, d.uPhi, d.uZ);
  }

  // ---------------------------------------------------------------------
  // The tally of FillEvent

  /** The seventeen `totGen*` counters: inverse beta, four elastic, eight
      neutral-current (species x nucleon), nue + O, nuebar + O and their two
      aggregate sub-reactions. */
  const NumCounters: nat := 17

  /** The counter a decoded reaction increments, if any. */
  function CounterFor(c: Channel): (k: Option<nat>)
    ensures k.Some? ==> k.value < NumCounters
  {
    match c
    case InverseBeta => Some(0)
    case Elastic(f) => if 1 <= f <= 4 then Some(f) else None
    case NeutralCurrent(excit, particle, _) =>
      if 0 <= excit < 4 && 0 <= particle < 2 then Some(5 + 4 * particle + excit) else None
    case ChargedCurrent(reaction, _, exState, _) =>
      if reaction == 0 && exState != SubExState then Some(13)
      else if reaction == 1 && exState != SubExState then Some(14)
      else if reaction == 0 then Some(15)
      else if reaction == 1 then Some(16)
      else None
    case Unrecognized => None
  }

  predicate Counted(id: int)
  {
    CounterFor(Decode(id)).Some?
  }

  /** Increment the counter of reaction id `id`. */
  function Bump(t: seq<nat>, id: int): (r: seq<nat>)
    requires |t| == NumCounters
    ensures |r| == NumCounters
  {
    match CounterFor(Decode(id))
    case Some(c) => t[c := t[c] + 1]
    case None => t
  }

  function Sum(t: seq<nat>): nat
  {
    if |t| == 0 then 0 else Sum(t[..|t| - 1]) + t[|t| - 1]
  }

  /** Incrementing one counter raises the total by one. */
  lemma {:induction false} SumIncrement(t: seq<nat>, c: nat)
    requires c < |t|
    ensures Sum(t[c := t[c] + 1]) == Sum(t) + 1
  {
    var u := t[c := t[c] + 1];
    if c == |t| - 1 {
      assert u[..|u| - 1] == t[..|t| - 1];
    } else {
      assert u[..|u| - 1] == t[..|t| - 1][c := t[c] + 1];
      SumIncrement(t[..|t| - 1], c);
    }
  }

  /** `Bump` raises the total by exactly one for a counted id and leaves
      every counter alone for any other. */
  lemma BumpTotal(t: seq<nat>, id: int)
    requires |t| == NumCounters
    ensures Sum(Bump(t, id)) == Sum(t) + (if Counted(id) then 1 else 0)
    ensures !Counted(id) ==> Bump(t, id) == t
  {
    if Counted(id) {
      SumIncrement(t, CounterFor(Decode(id)).value);
    }
  }

  /** Every id that Process books increments the counter of its own
      reaction: 0 and 1..4 their own, a neutral-current id the counter of
      its species and nucleon, an ordinary charged-current id nue + O or
      nuebar + O, and a sub-reaction id only the matching sub counter. */
  lemma SmallIdsCounted(id: int)
    requires 0 <= id <= 4
    ensures CounterFor(Decode(id)) == Some(id)
  {
  }

  lemma {:induction false} NCIdsCounted(rcn: int, excit: int, exEnergy: int)
    requires ValidNC(rcn, excit, exEnergy)
    ensures CounterFor(Decode(EncodeNC(rcn, excit, exEnergy))) == Some(5 + 4 * excit + rcn)
  {
    NCRoundTrip(rcn, excit, exEnergy);
    NCCounter(rcn, excit, exEnergy);
  }

  lemma NCCounter(rcn: int, excit: int, exEnergy: int)
    requires 0 <= rcn < 4 && 0 <= excit < 2
    ensures CounterFor(NeutralCurrent(rcn, excit, exEnergy)) == Some(5 + 4 * excit + rcn)
  {
  }

  lemma {:induction false} CCIdsCounted(rcn: int, exEnergy: int, exState: int, ch: int)
    requires ValidCC(rcn, exEnergy, exState, ch)
    ensures CounterFor(Decode(EncodeCC(rcn, exEnergy, exState, ch))) == Some(13 + rcn)
  {
    CCRoundTrip(rcn, exEnergy, exState, ch);
  }

  lemma {:induction false} SubIdsCounted(rcn: int, exEnergy: int)
    requires ValidSub(rcn, exEnergy)
    ensures CounterFor(Decode(EncodeSub(rcn, exEnergy))) == Some(15 + rcn)
  {
    SubRoundTrip(rcn, exEnergy);
  }

  // ---------------------------------------------------------------------
  // The filled entries of FillEvent

  /** MCVERTEX: one vertex at the interaction point, flagged as the
      primary, time 0 (the event time goes to the SN branch instead). */
  datatype Vertex = Vertex(pos: Vec3, iflvvc: int, iparvc: int, timvvc: real)

  function PrimaryVertex(pos: Vec3): Vertex
  {
    Vertex(pos, 1, 0, 0.0)
  }

  /** One filled tree entry: the output file index, the SN branch (event
      index and record) and the MC branch (vertices and particle bank). */
  datatype Entry = Entry(file: int, iEvt: int, info: EventInfo, vertices: seq<Vertex>,
                         nvc: int, tracks: seq<Track>)

  /** The loop state of FillEvent: entries filled, counters, file index. */
  datatype FillState = FillState(output: seq<Entry>, tally: seq<nat>, nsub: int)

  function EventKin(s: Setup, rmat: seq<seq<real>>, e: EventInfo, d: KinDraw): Kin
    requires IsMat3(rmat)
  {
    FinalState(s.ph, s.tb, rmat, e.rType, e.nuEne, e.nuDir, d)
  }

  /** The kinematics of every record, each with its own draws. */
  function KinsOf(s: Setup, rmat: seq<seq<real>>, events: seq<EventInfo>, draws: seq<KinDraw>): (ks: seq<Kin>)
    requires IsMat3(rmat) && |draws| == |events|
    ensures |ks| == |events|
    ensures forall i :: 0 <= i < |events| ==> ks[i] == EventKin(s, rmat, events[i], draws[i])
  {
    seq(|events|, i requires 0 <= i < |events| => EventKin(s, rmat, events[i], draws[i]))
  }

  /** The file index after the rotation check at event i. */
  function NextFile(nFile: int, i: int, nsub: int): (n: int)
    requires nFile > 0
    ensures n == nsub || n == nsub + 1
  {
    if i != 0 && i % nFile == 0 then nsub + 1 else nsub
  }

  /** One iteration of the FillEvent loop, given the kinematics of each
      record. */
  function FillStep(nFile: int, events: seq<EventInfo>, kins: seq<Kin>, i: nat, st: FillState): (r: FillState)
    requires nFile > 0 && i < |events| && i < |kins| && |st.tally| == NumCounters
    ensures |r.tally| == NumCounters
    ensures st.output <= r.output && |r.output| <= |st.output| + 1
  {
    var nsub := NextFile(nFile, i, st.nsub);
    var e := events[i];
    var k := kins[i];
    if k.skip then st.(nsub := nsub)
    else FillState(st.output + [Entry(nsub, i, e, [PrimaryVertex(e.rVtx)], k.nvc, k.tracks)],
                   Bump(st.tally, e.rType), nsub)
  }

  /** The loop state after the first n events. */
  function FillUpTo(nFile: int, events: seq<EventInfo>, kins: seq<Kin>, n: nat, st0: FillState): (st: FillState)
    requires nFile > 0 && n <= |events| && n <= |kins| && |st0.tally| == NumCounters
    ensures |st.tally| == NumCounters
  {
    if n == 0 then st0
    else FillStep(nFile, events, kins, n - 1, FillUpTo(nFile, events, kins, n - 1, st0))
  }

  /** Division by a positive N: stepping from i - 1 to i raises the
      quotient by one exactly when i is a multiple of N. */
  lemma DivStep(i: int, n: int)
    requires i >= 1 && n > 0
    ensures i / n == (i - 1) / n + (if i % n == 0 then 1 else 0)
  {
    var q, r := (i - 1) / n, (i - 1) % n;
    assert i - 1 == q * n + r && 0 <= r < n;
    if r == n - 1 {
      assert i == (q + 1) * n + 0;
      DivModUnique(i, n, q + 1, 0);
    } else {
      assert i == q * n + (r + 1);
      DivModUnique(i, n, q, r + 1);
    }
  }

  /** File rotation: starting from file 0, after n events the file index
      is (n - 1) / NeventFile, and every entry filled lands in file
      iEvt / NeventFile. */
  lemma {:induction false} FillFiles(nFile: int, events: seq<EventInfo>, kins: seq<Kin>, n: nat, st0: FillState)
    requires nFile > 0 && n <= |events| && n <= |kins| && |st0.tally| == NumCounters && st0.nsub == 0
    ensures var st := FillUpTo(nFile, events, kins, n, st0);
      && st.nsub == (if n == 0 then 0 else (n - 1) / nFile)
      && |st0.output| <= |st.output|
      && forall j :: |st0.output| <= j < |st.output| ==> st.output[j].file == st.output[j].iEvt / nFile
  {
    if n > 0 {
      FillFiles(nFile, events, kins, n - 1, st0);
      var prev := FillUpTo(nFile, events, kins, n - 1, st0);
      var i := n - 1;
      if i == 0 {
        assert NextFile(nFile, i, prev.nsub) == 0;
      } else {
        DivStep(i, nFile);
        assert NextFile(nFile, i, prev.nsub) == i / nFile;
      }
    }
  }

  /** Every entry filled comes from a distinct event, in increasing order,
      whose kinematics did not skip it; it carries that event's record, its
      primary vertex and the particle bank of its kinematics; the entries
      before the loop are kept. */
  lemma {:induction false} FillSound(nFile: int, events: seq<EventInfo>, kins: seq<Kin>, n: nat, st0: FillState)
    requires nFile > 0 && n <= |events| && n <= |kins| && |st0.tally| == NumCounters
    ensures var st := FillUpTo(nFile, events, kins, n, st0);
      && |st0.output| <= |st.output|
      && st.output[..|st0.output|] == st0.output
      && (forall j :: |st0.output| <= j < |st.output| ==>
            var e := st.output[j];
            && 0 <= e.iEvt < n && e.info == events[e.iEvt]
            && !kins[e.iEvt].skip && e.nvc == kins[e.iEvt].nvc && e.tracks == kins[e.iEvt].tracks
            && e.vertices == [PrimaryVertex(events[e.iEvt].rVtx)])
      && (forall j, j' :: |st0.output| <= j < j' < |st.output| ==> st.output[j].iEvt < st.output[j'].iEvt)
  {
    if n > 0 {
      FillSound(nFile, events, kins, n - 1, st0);
      var prev := FillUpTo(nFile, events, kins, n - 1, st0);
      var st := FillUpTo(nFile, events, kins, n, st0);
      if !kins[n - 1].skip {
        assert st.output == prev.output + [st.output[|st.output| - 1]];
        assert st.output[..|prev.output|] == prev.output;
      }
    }
  }

  /** One loop iteration appends the entry of event i unless its
      kinematics skipped it. */
  lemma FillStepAppends(nFile: int, events: seq<EventInfo>, kins: seq<Kin>, i: nat, st: FillState)
    requires nFile > 0 && i < |events| && i < |kins| && |st.tally| == NumCounters
    ensures FillStep(nFile, events, kins, i, st).output ==
            st.output + (if kins[i].skip then []
                         else [Entry(NextFile(nFile, i, st.nsub), i, events[i], [PrimaryVertex(events[i].rVtx)],
                                     kins[i].nvc, kins[i].tracks)])
  {
  }

  lemma {:induction false} FillGrows(nFile: int, events: seq<EventInfo>, kins: seq<Kin>, n: nat, st0: FillState)
    requires nFile > 0 && n <= |events| && n <= |kins| && |st0.tally| == NumCounters
    ensures |st0.output| <= |FillUpTo(nFile, events, kins, n, st0).output|
  {
    if n > 0 {
      FillGrows(nFile, events, kins, n - 1, st0);
      FillStepAppends(nFile, events, kins, n - 1, FillUpTo(nFile, events, kins, n - 1, st0));
    }
  }

  /** Conversely, every event of the first n whose kinematics did not
      skip it has an entry. */
  lemma {:induction false} FillComplete(nFile: int, events: seq<EventInfo>, kins: seq<Kin>, n: nat,
                                        st0: FillState, i: nat)
    requires nFile > 0 && n <= |events| && n <= |kins| && |st0.tally| == NumCounters
    requires i < n && !kins[i].skip
    ensures exists j :: |st0.output| <= j < |FillUpTo(nFile, events, kins, n, st0).output|
                        && FillUpTo(nFile, events, kins, n, st0).output[j].iEvt == i
  {
    var prev := FillUpTo(nFile, events, kins, n - 1, st0);
    var st := FillUpTo(nFile, events, kins, n, st0);
    FillGrows(nFile, events, kins, n - 1, st0);
    FillStepAppends(nFile, events, kins, n - 1, prev);
    assert st == FillStep(nFile, events, kins, n - 1, prev);
    if i == n - 1 {
      var j := |prev.output|;
      assert |st0.output| <= j < |st.output| && st.output[j].iEvt == i;
    } else {
      FillComplete(nFile, events, kins, n - 1, st0, i);
      var j :| |st0.output| <= j < |prev.output| && prev.output[j].iEvt == i;
      assert st.output[j] == prev.output[j];
      assert |st0.output| <= j < |st.output| && st.output[j].iEvt == i;
    }
  }

  /** The tally grows by one for each entry filled and by nothing else,
      when every record's id is counted: skipped events are neither filled
      nor counted, and `totalNumOfGenEvts` grows by exactly the number of
      entries filled. */
  lemma {:induction false} FillTally(nFile: int, events: seq<EventInfo>, kins: seq<Kin>, n: nat, st0: FillState)
    requires nFile > 0 && n <= |events| && n <= |kins| && |st0.tally| == NumCounters
    requires forall i :: 0 <= i < n ==> Counted(events[i].rType)
    ensures var st := FillUpTo(nFile, events, kins, n, st0);
      Sum(st.tally) == Sum(st0.tally) + |st.output| - |st0.output|
  {
    if n > 0 {
      FillTally(nFile, events, kins, n - 1, st0);
      var prev := FillUpTo(nFile, events, kins, n - 1, st0);
      BumpTotal(prev.tally, events[n - 1].rType);
    }
  }

  // ---------------------------------------------------------------------
  // The particle bank and the generator

  /** The MCINFO branch: vertex list and particle bank. */
  class McInfo {
    var vertices: seq<Vertex>
    var nvc: int
    var tracks: seq<Track>

    constructor ()
      ensures vertices == [] && nvc == 0 && tracks == []
    {
      vertices, nvc, tracks := [], 0, [];
    }

    /** `Clear`: an empty bank. */
    method Clear()
      modifies this
      ensures vertices == [] && nvc == 0 && tracks == []
    {
      vertices, nvc, tracks := [], 0, [];
    }

    /** The single interaction vertex at `pos`. */
    method SetVertex(pos: Vec3)
      modifies `vertices
      ensures vertices == [PrimaryVertex(pos)]
    {
      vertices := [Vertex(pos, 1, 0, 0.0)];
    }
  }

  /** `VectGenGenerator`: its configuration, the rotation into the
      detector frame, the supernova direction, the skip flag, the booked
      records `vEvtInfo`, the counters and the entries filled so far. */
  class Generator {
    const setup: Setup
    var rmat: seq<seq<real>>
    var snDir: Vec3
    var iSkip: int
    var events: seq<EventInfo>
    var tally: seq<nat>
    var output: seq<Entry>

    predicate Valid()
      reads this
    {
      IsMat3(rmat) && |tally| == NumCounters
    }

    constructor (setup: Setup, rmat: seq<seq<real>>, snDir: Vec3)
      requires IsMat3(rmat)
      ensures Valid() && this.setup == setup && this.rmat == rmat && this.snDir == snDir
      ensures iSkip == 0 && events == [] && output == [] && tally == seq(NumCounters, _ => 0)
    {
      this.setup, this.rmat, this.snDir := setup, rmat, snDir;
      iSkip, events, output := 0, [], [];
      tally := seq(NumCounters, _ => 0);
    }

    /** `MakeEvent` for a Poisson count n = |draws|: appends one record per
        draw and leaves the earlier records alone. */
    method MakeEvent(time: real, nuEnergy: real, nReact: int, nuType: int, draws: seq<EventDraw>)
      modifies `events
      ensures events == old(events) + NewEvents(setup, snDir, time, nuEnergy, nReact, nuType, draws)
    {
      ghost var before := events;
      var i := 0;
      while i < |draws|
        invariant 0 <= i <= |draws|
        invariant events == before + NewEvents(setup, snDir, time, nuEnergy, nReact, nuType, draws[..i])
      {
        var nuEne := UniformDraw(nuEnergy - setup.nuEneBinSize / 2.0, nuEnergy + setup.nuEneBinSize / 2.0, draws[i].uEne);
        var tReact := UniformDraw(time - setup.tBinSize / 2.0, time + setup.tBinSize / 2.0, draws[i].uTime);
        var vtx := DeterminePosition(setup.ph, setup.geo, InnerID, draws[i].uR, draws[i].uPhi, draws[i].uZ);
        events := events + [EventInfo(nReact, tReact, nuType, nuEne, snDir, vtx)];
        assert draws[..i + 1][..i] == draws[..i];
        i := i + 1;
      }
      assert draws[..i] == draws;
    }

    /** `determineKinematics` on a cleared bank: writes the rows of the
        template the id selects and raises `iSkip` when the elastic sampler
        gives up. */
    method DetermineKinematics(nReact: int, nuEne: real, nuDir: Vec3, d: KinDraw, mc: McInfo)
      requires IsMat3(rmat) && mc.nvc == 0 && mc.tracks == []
      modifies mc`nvc, mc`tracks, `iSkip
      ensures var k := FinalState(setup.ph, setup.tb, rmat, nReact, nuEne, nuDir, d);
        && mc.nvc == k.nvc && mc.tracks == k.tracks
        && iSkip == (if k.skip then 1 else old(iSkip))
    {
      match Decode(nReact)
      case InverseBeta =>
        InverseBetaKinematics(nuEne, nuDir, d.lepton, mc);
      case Elastic(f) =>
        if d.costTh > 1.0 || d.costTh < -1.0 {
          iSkip := 1;
        }
        ElasticKinematics(f, nuEne, nuDir, d.lepton, mc);
      case NeutralCurrent(excit, particle, channel) =>
        NeutralCurrentKinematics(excit, particle, channel, nuEne, nuDir, d.iso, mc);
      case ChargedCurrent(reaction, _, exState, channel) =>
        ChargedCurrentKinematics(reaction, exState, channel, nuEne, nuDir, d, mc);
      case Unrecognized =>
    }

    method InverseBetaKinematics(nuEne: real, nuDir: Vec3, l: LeptonDraw, mc: McInfo)
      requires IsMat3(rmat)
      modifies mc`nvc, mc`tracks
      ensures var k := IbdState(setup.ph, rmat, nuEne, nuDir, l);
        mc.nvc == k.nvc && mc.tracks == k.tracks
    {
      var ph := setup.ph;
      mc.nvc := 4;
      var nu := Incident(-12, nuEne, nuDir);
      var proton := Track(2212, ph.mp, Vec3(0.0, 0.0, 0.0), 0, 1, -1, 0, 1);
      var eDir := ConvDirection(ph, rmat, l.eTheta, l.ePhi);
      var positron := Secondary(-11, l.eEne, Scale(LeptonMomentum(ph, l), eDir), 1);
      var pn := Minus(nu.pvc, positron.pvc);
      var neutron := Secondary(2112, OnShellEnergy(ph, pn, ph.mn), pn, 1);
      mc.tracks := [nu, proton, positron, neutron];
    }

    method ElasticKinematics(f: int, nuEne: real, nuDir: Vec3, l: LeptonDraw, mc: McInfo)
      requires IsMat3(rmat)
      modifies mc`nvc, mc`tracks
      ensures var k := ElasticState(setup.ph, rmat, f, nuEne, nuDir, KinDraw(l, 0.0, _ => Vec3(0.0, 0.0, 0.0)));
        mc.nvc == k.nvc && mc.tracks == k.tracks
    {
      var ph := setup.ph;
      mc.nvc := 2;
      var eDir := ConvDirection(ph, rmat, l.eTheta, l.ePhi);
      mc.tracks := [Incident(FlavorCode(f - 1), nuEne, nuDir), Secondary(11, l.eEne, Scale(LeptonMomentum(ph, l), eDir), 1)];
    }

    method NeutralCurrentKinematics(excit: int, particle: int, channel: int, nuEne: real, nuDir: Vec3,
                                    iso: nat -> Vec3, mc: McInfo)
      modifies mc`nvc, mc`tracks
      ensures var k := NCState(setup.ph, setup.tb, excit, particle, channel, nuEne, nuDir, iso);
        mc.nvc == k.nvc && mc.tracks == k.tracks
    {
      var ph := setup.ph;
      mc.nvc := 3;
      mc.tracks := [Incident(FlavorCode(excit), nuEne, nuDir)];
      var eg := setup.tb.eneGamN(channel);
      if particle == 0 {
        mc.tracks := mc.tracks + [Secondary(2212, ph.mp + NucleonKinetic, iso(0), 1)];
        mc.tracks := mc.tracks + [Secondary(22, eg, Scale(eg, iso(1)), 1)];
      } else if particle == 1 {
        var amom := NucleonMomentum(ph, ph.mn);
        mc.tracks := mc.tracks + [Secondary(2112, NucleonKinetic + ph.mn, Scale(amom, iso(0)), 1)];
        mc.tracks := mc.tracks + [Secondary(22, eg, Scale(eg, iso(1)), 1)];
      }
    }

    /** The charged-current branch counts `nvc` up with every row it
        writes. */
    method ChargedCurrentKinematics(reaction: int, exState: int, channel: int, nuEne: real, nuDir: Vec3,
                                    d: KinDraw, mc: McInfo)
      requires IsMat3(rmat) && mc.nvc == 0
      modifies mc`nvc, mc`tracks
      ensures var k := CCState(setup.ph, setup.tb, rmat, reaction, exState, channel, nuEne, nuDir, d);
        mc.nvc == k.nvc && mc.tracks == k.tracks
    {
      var ph, l := setup.ph, d.lepton;
      var nuCode := if reaction == 0 then 12 else if reaction == 1 then -12 else 0;
      mc.tracks := [Incident(nuCode, nuEne, nuDir)];
      mc.nvc := mc.nvc + 1;
      var lepCode := if reaction == 0 then 11 else if reaction == 1 then -11 else 0;
      var eDir := ConvDirection(ph, rmat, l.eTheta, l.ePhi);
      mc.tracks := mc.tracks + [Secondary(lepCode, l.eEne, Scale(LeptonMomentum(ph, l), eDir), 1)];
      mc.nvc := mc.nvc + 1;
      assert mc.tracks == [Incident(nuCode, nuEne, nuDir), LeptonTrack(ph, rmat, lepCode, l)];
      AppendCCSecondaries(reaction, exState, channel, d.iso, mc);
    }

    /** The secondaries of a charged-current reaction, the neutrons in a
        loop over the table entry. */
    method AppendCCSecondaries(reaction: int, exState: int, channel: int, iso: nat -> Vec3, mc: McInfo)
      requires mc.nvc == |mc.tracks|
      modifies mc`nvc, mc`tracks
      ensures mc.tracks == old(mc.tracks) + CCSecondaries(setup.ph, setup.tb, reaction, exState, channel, iso)
      ensures mc.nvc == |mc.tracks|
    {
      var tb := setup.tb;
      if TableGuard(tb, channel) && exState != SubExState {
        if reaction == 0 || (reaction == 1 && channel != 0) {
          var n := if reaction == 0 then tb.numNtNueO(channel) else tb.numNtNuebarO(channel);
          AppendNeutrons(n, iso, mc);
        } else if reaction == 1 {
          mc.tracks := mc.tracks + [Secondary(22, CCGammaEnergy, Scale(CCGammaEnergy, iso(0)), 0)];
          mc.nvc := mc.nvc + 1;
        }
      }
    }

    /** The neutron loop of the charged-current branch: n neutrons, the
        j-th along the j-th isotropic draw. */
    method AppendNeutrons(n: int, iso: nat -> Vec3, mc: McInfo)
      requires mc.nvc == |mc.tracks|
      modifies mc`nvc, mc`tracks
      ensures mc.tracks == old(mc.tracks) + CCNeutrons(setup.ph, iso, n)
      ensures mc.nvc == |mc.tracks|
    {
      ghost var before := mc.tracks;
      var i := 0;
      while i < n
        invariant 0 <= i <= (if n > 0 then n else 0)
        invariant mc.tracks == before + CCNeutrons(setup.ph, iso, i)
        invariant mc.nvc == |mc.tracks|
      {
        AppendAssoc(before, CCNeutrons(setup.ph, iso, i), [CCNeutron(setup.ph, iso(i))]);
        mc.tracks := mc.tracks + [CCNeutron(setup.ph, iso(i))];
        mc.nvc := mc.nvc + 1;
        i := i + 1;
      }
      assert CCNeutrons(setup.ph, iso, i) == CCNeutrons(setup.ph, iso, n);
    }

    /** The event loop of `FillEvent` with one kinematics draw per record:
        clears the bank, rotates the output file every NeventFile events,
        writes the vertex and the kinematics, and for a record the
        kinematics did not skip fills an entry and increments its counter.
        Returns `totalNumOfGenEvts`, the sum of the counters. */
    method FillEvent(draws: seq<KinDraw>) returns (total: int)
      requires Valid() && setup.neventFile > 0 && |draws| == |events|
      modifies this
      ensures Valid() && events == old(events) && rmat == old(rmat) && snDir == old(snDir)
      ensures var st := FillUpTo(setup.neventFile, events, KinsOf(setup, rmat, events, draws), |events|,
                                 FillState(old(output), old(tally), 0));
        output == st.output && tally == st.tally
      ensures iSkip == (if |events| == 0 then old(iSkip)
                        else if EventKin(setup, rmat, events[|events| - 1], draws[|events| - 1]).skip then 1 else 0)
      ensures total == Sum(tally)
    {
      var mc := new McInfo();
      var nsub := 0;
      ghost var st0 := FillState(output, tally, 0);
      ghost var kins := KinsOf(setup, rmat, events, draws);
      var iEvt := 0;
      while iEvt < |events|
        invariant 0 <= iEvt <= |events| && Valid()
        invariant events == old(events) && rmat == old(rmat) && snDir == old(snDir)
        invariant FillUpTo(setup.neventFile, events, kins, iEvt, st0) == FillState(output, tally, nsub)
        invariant iSkip == (if iEvt == 0 then old(iSkip) else if kins[iEvt - 1].skip then 1 else 0)
      {
        nsub := FillOne(iEvt, nsub, draws[iEvt], mc, kins);
        iEvt := iEvt + 1;
      }
      total := Sum(tally);
    }

    /** The body of the `FillEvent` loop for event i. */
    method FillOne(i: nat, nsub0: int, d: KinDraw, mc: McInfo, ghost kins: seq<Kin>) returns (nsub: int)
      requires Valid() && setup.neventFile > 0 && i < |events| == |kins|
      requires kins[i] == EventKin(setup, rmat, events[i], d)
      modifies `output, `tally, `iSkip, mc
      ensures Valid() && events == old(events) && rmat == old(rmat) && snDir == old(snDir)
      ensures FillState(output, tally, nsub)
              == FillStep(setup.neventFile, events, kins, i, FillState(old(output), old(tally), nsub0))
      ensures iSkip == if kins[i].skip then 1 else 0
    {
      mc.Clear();
      iSkip := 0;
      nsub := nsub0;
      if i != 0 && i % setup.neventFile == 0 {
        nsub := nsub + 1;
      }
      var p := events[i];
      mc.SetVertex(p.rVtx);
      DetermineKinematics(p.rType, p.nuEne, p.nuDir, d, mc);
      if iSkip == 0 {
        output := output + [Entry(nsub, i, p, mc.vertices, mc.nvc, mc.tracks)];
        tally := Bump(tally, p.rType);
      }
    }
  }

  /** Starting from zeroed counters on records whose ids are all counted,
      the total `FillEvent` reports is the number of entries it filled. */
  lemma TotalIsFilled(nFile: int, events: seq<EventInfo>, kins: seq<Kin>)
    requires nFile > 0 && |kins| == |events|
    requires forall i :: 0 <= i < |events| ==> Counted(events[i].rType)
    ensures var st := FillUpTo(nFile, events, kins, |events|, FillState([], seq(NumCounters, _ => 0), 0));
      Sum(st.tally) == |st.output|
  {
    var z: seq<nat> := seq(NumCounters, _ => 0);
    FillTally(nFile, events, kins, |events|, FillState([], z, 0));
    ZeroSum(z);
  }

  lemma {:induction false} ZeroSum(t: seq<nat>)
    requires forall i :: 0 <= i < |t| ==> t[i] == 0
    ensures Sum(t) == 0
  {
    if |t| > 0 {
      ZeroSum(t[..|t| - 1]);
    }
  }
}
