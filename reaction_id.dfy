/** The reaction identifier of the supernova vector generator: one `int`
    that packs a reaction channel, built by `Process` when it books
    events and unpacked by `determineKinematics` and `FillEvent`.

    Ranges: 0 is inverse beta decay, 1..4 are the four elastic-scattering
    flavours, 1000 < id < 10000 is neutral-current scattering on oxygen and
    id >= 10000 is charged-current scattering on oxygen. */
module ReactionId {
  import opened Util

  /** A decoded identifier, with the field names the decoder uses.
      For the neutral current, `excit` is the neutrino-flavour index
      (0 nue, 1 nuebar, 2 nux, 3 nuxbar), `particle` the ejected nucleon
      (0 proton, 1 neutron) and `channel` the excitation level.
      For the charged current, `reaction` is 0 for nue and 1 for nuebar,
      `state` the nuclear state, `exState` the excitation level
      (29 for the aggregate sub-reaction) and `channel` the decay channel
      (8 for the aggregate sub-reaction). */
  datatype Channel =
    | InverseBeta
    | Elastic(flavor: int)
    | NeutralCurrent(excit: int, particle: int, channel: int)
    | ChargedCurrent(reaction: int, state: int, exState: int, channel: int)
    | Unrecognized

  /** Excitation level and decay channel that the aggregate charged-current
      sub-reaction decodes to. */
  const SubExState: int := 29
  const SubChannel: int := 8

  /** Number of excitation levels per nuclear state in the charged-current
      loops of `Process`. */
  function NumExStates(state: int): (n: nat)
    ensures 0 <= state < 5 ==> 1 <= n <= 16
  {
    if state == 0 then 3
    else if state == 1 then 15
    else if state == 2 then 8
    else if state == 3 then 1
    else if state == 4 then 16
    else 0
  }

  /** The charged-current field values `Process` enumerates. */
  predicate ValidCC(rcn: int, exEnergy: int, exState: int, ch: int)
  {
    0 <= rcn < 2 && 0 <= exEnergy < 5 && 0 <= exState < NumExStates(exEnergy) && 0 <= ch < 7
  }

  /** The aggregate sub-reaction: any of the 32 sub-channels of a state. */
  predicate ValidSub(rcn: int, exEnergy: int)
  {
    0 <= rcn < 2 && 0 <= exEnergy < 5
  }

  /** Number of excitation levels of the neutral-current final nucleus:
      8 for p + 15N, 4 for n + 15O. */
  function NumNCLevels(excit: int): nat
  {
    if excit == 0 then 8 else if excit == 1 then 4 else 0
  }

  /** The neutral-current field values `Process` enumerates. */
  predicate ValidNC(rcn: int, excit: int, exEnergy: int)
  {
    0 <= rcn < 4 && 0 <= excit < 2 && 0 <= exEnergy < NumNCLevels(excit)
  }

  /** Neutral-current identifier; the enumerated ones lie in 3111..3424,
      inside the neutral-current range. */
  function EncodeNC(rcn: int, excit: int, exEnergy: int): (id: int)
    ensures ValidNC(rcn, excit, exEnergy) ==> 3111 <= id <= 3424
  {
    3000 + (rcn + 1) * 100 + (excit + 1) * 10 + (exEnergy + 1)
  }

  /** Charged-current identifier (`10e4` is 100000, `10e3` is 10000; the
      double sum is an exact integer for every enumerated value). */
  function EncodeCC(rcn: int, exEnergy: int, exState: int, ch: int): (id: int)
    ensures ValidCC(rcn, exEnergy, exState, ch) ==> 110011 <= id <= 250167
  {
    (rcn + 1) * 100000 + (exEnergy + 1) * 10000 + (exState + 1) * 10 + (ch + 1)
  }

  /** Aggregate sub-reaction identifier; the sub-channel is not encoded.
      The enumerated ones lie in 110309..250309. */
  function EncodeSub(rcn: int, exEnergy: int): (id: int)
    ensures ValidSub(rcn, exEnergy) ==> 110309 <= id <= 250309
  {
    (rcn + 1) * 100000 + (exEnergy + 1) * 10000 + 3 * 100 + 9
  }

  /** The neutral-current decoder: integer arithmetic on a positive id.
      Each field is one decimal digit of the id minus one. */
  function DecodeNC(id: int): (c: Channel)
    requires 1000 < id < 10000
    ensures c.NeutralCurrent?
    ensures -1 <= c.excit <= 8 && -1 <= c.particle <= 8 && -1 <= c.channel <= 8
  {
    var reaction := id / 1000;
    var excitPre := id / 100;
    var excit := (id - reaction * 1000) / 100 - 1;
    var chPre := id / 10;
    var channel := (id - chPre * 10) - 1;
    var particle := (id - excitPre * 100) / 10 - 1;
    NeutralCurrent(excit, particle, channel)
  }

  /** The charged-current decoder. The source divides by the double
      constants 10e4 and 10e3 (and once by the int 10 inside a double
      expression) and truncates the double toward zero when it is stored
      in an int; `Trunc` models that conversion. */
  function DecodeCC(id: int): (c: Channel)
    requires id >= 10000
    ensures c.ChargedCurrent?
    ensures c.reaction >= 0 && -1 <= c.channel <= 8
  {
    var reaction := Trunc(id as real / 100000.0 - 1.0);
    var statePre := Trunc(id as real / 10000.0);
    var exStatePre := id / 10;
    var state := Trunc((id - (reaction + 1) * 100000) as real / 10000.0 - 1.0);
    var exState := Trunc((id - statePre * 10000) as real / 10.0 - 1.0);
    var channel := (id - exStatePre * 10) - 1;
    ChargedCurrent(reaction, state, exState, channel)
  }

  /** The dispatch on the id shared by `determineKinematics` and
      `FillEvent`: the four ranges select disjoint branches, and every
      other id (negative, 5..1000) reaches none of them. */
  function Decode(id: int): (c: Channel)
    ensures c.InverseBeta? <==> id == 0
    ensures c.Elastic? <==> 1 <= id <= 4
    ensures c.Elastic? ==> c.flavor == id
    ensures c.NeutralCurrent? <==> 1000 < id < 10000
    ensures c.ChargedCurrent? <==> id >= 10000
    ensures c.Unrecognized? <==> id < 0 || 5 <= id <= 1000
  {
    if id == 0 then InverseBeta
    else if 1 <= id <= 4 then Elastic(id)
    else if 1000 < id < 10000 then DecodeNC(id)
    else if id >= 10000 then DecodeCC(id)
    else Unrecognized
  }

  // ---------------------------------------------------------------------
  // The double arithmetic of DecodeCC, reduced to integer arithmetic

  /** On an id with a non-zero reaction digit group, the reaction and the
      state prefix are integer quotients. */
  lemma DecodeCCPrefixes(id: int)
    requires id >= 100000
    ensures Trunc(id as real / 100000.0 - 1.0) == id / 100000 - 1
    ensures Trunc(id as real / 10000.0) == id / 10000
  {
    TruncQuotientMinusOne(id, 100000);
    TruncQuotient(id, 10000);
  }

  /** Where the state and excitation digit groups of an id are non-zero,
      `DecodeCC` reads the decimal digit groups of the id. */
  lemma {:induction false} DecodeCCDigits(id: int)
    requires id >= 100000
    requires id % 100000 >= 10000 && id % 10000 >= 10
    ensures DecodeCC(id) == ChargedCurrent(id / 100000 - 1, (id % 100000) / 10000 - 1,
                                         (id % 10000) / 10 - 1, id % 10 - 1)
  {
    DecodeCCPrefixes(id);
    var reaction := id / 100000 - 1;
    var statePre := id / 10000;
    assert id - (reaction + 1) * 100000 == id % 100000;
    assert id - statePre * 10000 == id % 10000;
    assert (id - (id / 10) * 10) - 1 == id % 10 - 1;
    TruncQuotientMinusOne(id % 100000, 10000);
    TruncQuotientMinusOne(id % 10000, 10);
  }

  // ---------------------------------------------------------------------
  // Round trips

  /** Charged current: every enumerated identifier is at least 10000 and
      decodes to the fields it was built from. */
  lemma {:induction false} CCRoundTrip(rcn: int, exEnergy: int, exState: int, ch: int)
    requires ValidCC(rcn, exEnergy, exState, ch)
    ensures EncodeCC(rcn, exEnergy, exState, ch) >= 10000
    ensures Decode(EncodeCC(rcn, exEnergy, exState, ch)) == ChargedCurrent(rcn, exEnergy, exState, ch)
  {
    var id := EncodeCC(rcn, exEnergy, exState, ch);
    var low := (exState + 1) * 10 + (ch + 1);
    assert 11 <= low <= 167;
    assert id == (rcn + 1) * 100000 + (exEnergy + 1) * 10000 + low;
    assert id / 100000 == rcn + 1;
    assert id % 100000 == (exEnergy + 1) * 10000 + low;
    assert id % 10000 == low;
    assert low / 10 == exState + 1 && low % 10 == ch + 1;
    assert id % 10 == ch + 1;
    DecodeCCDigits(id);
  }

  /** The aggregate sub-reaction decodes to excitation level 29 and decay
      channel 8, whatever sub-channel was being booked. */
  lemma {:induction false} SubRoundTrip(rcn: int, exEnergy: int)
    requires ValidSub(rcn, exEnergy)
    ensures EncodeSub(rcn, exEnergy) >= 10000
    ensures Decode(EncodeSub(rcn, exEnergy)) == ChargedCurrent(rcn, exEnergy, SubExState, SubChannel)
  {
    var id := EncodeSub(rcn, exEnergy);
    assert id == (rcn + 1) * 100000 + (exEnergy + 1) * 10000 + 309;
    assert id / 100000 == rcn + 1;
    assert id % 100000 == (exEnergy + 1) * 10000 + 309;
    assert id % 10000 == 309;
    assert id % 10 == 9;
    DecodeCCDigits(id);
  }

  /** No ordinary charged-current identifier decodes to the sub-reaction
      sentinel, so the two never share a final-state branch or a counter. */
  lemma {:induction false} OrdinaryIsNotSub(rcn: int, exEnergy: int, exState: int, ch: int)
    requires ValidCC(rcn, exEnergy, exState, ch)
    ensures Decode(EncodeCC(rcn, exEnergy, exState, ch)).exState != SubExState
    ensures Decode(EncodeCC(rcn, exEnergy, exState, ch)).channel != SubChannel
  {
    CCRoundTrip(rcn, exEnergy, exState, ch);
  }

  /** Neutral current: every enumerated identifier lies strictly between
      1000 and 10000 and decodes to the fields it was built from. */
  lemma {:induction false} NCRoundTrip(rcn: int, excit: int, exEnergy: int)
    requires ValidNC(rcn, excit, exEnergy)
    ensures 1000 < EncodeNC(rcn, excit, exEnergy) < 10000
    ensures Decode(EncodeNC(rcn, excit, exEnergy)) == NeutralCurrent(rcn, excit, exEnergy)
  {
    var id := EncodeNC(rcn, excit, exEnergy);
    assert id / 1000 == 3;
    assert id / 100 == 30 + rcn + 1;
    assert id / 10 == 300 + (rcn + 1) * 10 + excit + 1;
  }

  /** The encoders are injective on the enumerated domains, and the three
      charged-current/neutral-current families never share an identifier
      with each other or with 0..4. */
  lemma {:induction false} EncodersInjective(r1: int, e1: int, s1: int, c1: int,
                                             r2: int, e2: int, s2: int, c2: int)
    requires ValidCC(r1, e1, s1, c1) && ValidCC(r2, e2, s2, c2)
    requires EncodeCC(r1, e1, s1, c1) == EncodeCC(r2, e2, s2, c2)
    ensures r1 == r2 && e1 == e2 && s1 == s2 && c1 == c2
  {
    CCRoundTrip(r1, e1, s1, c1);
    CCRoundTrip(r2, e2, s2, c2);
  }

  lemma {:induction false} NCInjective(r1: int, x1: int, e1: int, r2: int, x2: int, e2: int)
    requires ValidNC(r1, x1, e1) && ValidNC(r2, x2, e2)
    requires EncodeNC(r1, x1, e1) == EncodeNC(r2, x2, e2)
    ensures r1 == r2 && x1 == x2 && e1 == e2
  {
    NCRoundTrip(r1, x1, e1);
    NCRoundTrip(r2, x2, e2);
  }

  lemma {:induction false} FamiliesDisjoint(rcn: int, exEnergy: int, exState: int, ch: int,
                                            nr: int, nx: int, ne: int, sr: int, se: int)
    requires ValidCC(rcn, exEnergy, exState, ch) && ValidNC(nr, nx, ne) && ValidSub(sr, se)
    ensures EncodeCC(rcn, exEnergy, exState, ch) != EncodeSub(sr, se)
    ensures EncodeCC(rcn, exEnergy, exState, ch) != EncodeNC(nr, nx, ne)
    ensures EncodeSub(sr, se) != EncodeNC(nr, nx, ne)
    ensures !(0 <= EncodeNC(nr, nx, ne) <= 4) && !(0 <= EncodeSub(sr, se) <= 4)
  {
    OrdinaryIsNotSub(rcn, exEnergy, exState, ch);
    SubRoundTrip(sr, se);
    NCRoundTrip(nr, nx, ne);
  }

  // ---------------------------------------------------------------------
  // The other direction: where decoding then encoding gives the id back

  /** A charged-current id whose fields decode to enumerated values and
      whose state and excitation digit groups are non-zero is exactly the
      encoding of its decoded fields. */
  lemma {:induction false} CCDecodeThenEncode(id: int)
    requires id >= 100000 && id % 100000 >= 10000 && id % 10000 >= 10
    requires ValidCC(DecodeCC(id).reaction, DecodeCC(id).state, DecodeCC(id).exState, DecodeCC(id).channel)
    ensures EncodeCC(DecodeCC(id).reaction, DecodeCC(id).state, DecodeCC(id).exState, DecodeCC(id).channel) == id
  {
    DecodeCCDigits(id);
    CCDigitGroups(id);
  }

  /** An id is the sum of its charged-current digit groups. */
  lemma CCDigitGroups(id: int)
    ensures id == (id / 100000) * 100000 + ((id % 100000) / 10000) * 10000
                  + ((id % 10000) / 10) * 10 + id % 10
  {
    var t, l := id % 100000, id % 10000;
    ModOfMod(id, 10, 10000);
    ModOfMod(id, 1000, 10);
    assert id == (id / 100000) * 100000 + t;
    assert t == (t / 10000) * 10000 + l;
    assert l == (l / 10) * 10 + id % 10;
  }

  /** Outside those digit groups the truncating decoder aliases: 100081
      has a zero state digit group, the double division truncates its
      negative state field (-0.9919) up to 0, so it decodes like the
      encoding 110081 of (0, 0, 7, 0). */
  lemma CCDecodeAliases()
    ensures Decode(100081) == Decode(110081) == ChargedCurrent(0, 0, 7, 0)
    ensures EncodeCC(0, 0, 7, 0) == 110081
  {
    DecodeCCPrefixes(100081);
    DecodeCCDigits(110081);
    assert Trunc(81.0 / 10000.0 - 1.0) == 0;
    TruncQuotientMinusOne(81, 10);
  }

  /** The neutral-current decoder ignores the thousands digit: an id of the
      neutral-current range decodes like the id with that digit set to 3. */
  lemma {:induction false} NCDecodeThenEncode(id: int)
    requires 1000 < id < 10000
    requires ValidNC(DecodeNC(id).excit, DecodeNC(id).particle, DecodeNC(id).channel)
    ensures EncodeNC(DecodeNC(id).excit, DecodeNC(id).particle, DecodeNC(id).channel) == 3000 + id % 1000
  {
    var t := id % 1000;
    var d := id % 100;
    assert id - (id / 1000) * 1000 == t;
    assert id - (id / 100) * 100 == d;
    assert id - (id / 10) * 10 == id % 10;
    DigitSplit(id, t, d);
  }

  /** Decimal digit groups of an id. */
  lemma DigitSplit(id: int, t: int, d: int)
    requires t == id % 1000 && d == id % 100
    ensures t == (t / 100) * 100 + d
    ensures d == (d / 10) * 10 + id % 10
  {
    ModOfMod(id, 10, 100);
    ModOfMod(id, 10, 10);
  }
}
