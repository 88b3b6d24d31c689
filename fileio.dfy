/** Output planning: the list of output files with their run, subrun and
    event count, either as fixed-size chunks of a requested event total or
    following the detector's live time, subrun by subrun, with the event
    count of each subrun rounded stochastically. Also the run-period
    lookups the live-time branch uses.

    The period boundaries are constants of the detector whose values are
    not part of this model: they are a `Periods` parameter. The contents
    of the live-time files are a parameter `files` (path to records, empty
    when the file cannot be opened) and the uniform draws of the random
    generator a parameter `rnd` (the k-th draw). */
module FileIO {
  import opened Util

  datatype Config = Config(outputDirectory: string, outputPrefix: string, numEvents: int,
                           numEventsPerFile: int, normRuntime: bool, runtimeRunBegin: int,
                           runtimeRunEnd: int, runtimeFactor: real)

  datatype FileSet = FileSet(fileName: string, run: int, subrun: int, nev: int)

  /** Run number written for files that do not follow the live time. */
  const McRun: int := 999999

  /** `snprintf(buf, 999, ...)` keeps at most 998 characters. */
  const NameLimit: nat := 998

  // ---------------------------------------------------------------------
  // `%06d`

  function Pow10(k: nat): (p: nat)
    ensures p >= 1
  {
    if k == 0 then 1 else 10 * Pow10(k - 1)
  }

  predicate IsDigit(c: char)
  {
    '0' <= c <= '9'
  }

  function DigitChar(d: int): (c: char)
    requires 0 <= d < 10
    ensures IsDigit(c)
  {
    (48 + d) as char
  }

  /** Decimal digits of n, without leading zeros. */
  function Digits(n: nat): (s: string)
    ensures |s| >= 1 && forall i :: 0 <= i < |s| ==> IsDigit(s[i])
  {
    if n < 10 then [DigitChar(n)] else Digits(n / 10) + [DigitChar(n % 10)]
  }

  /** s left-padded with zeros to width w. */
  function ZeroPad(s: string, w: nat): (r: string)
    ensures |r| == if |s| >= w then |s| else w
    ensures |s| < w ==> forall i :: 0 <= i < w - |s| ==> r[i] == '0'
  {
    if |s| >= w then s else seq(w - |s|, _ => '0') + s
  }

  /** `printf("%06d", i)`: at least six characters, zero-padded after the
      sign. */
  function Fmt06d(i: int): (s: string)
    ensures |s| >= 6
    ensures forall k :: 0 <= k < |s| ==> IsDigit(s[k]) || s[k] == '-'
  {
    if i >= 0 then ZeroPad(Digits(i), 6) else "-" + ZeroPad(Digits(-i), 5)
  }

  /** Value of a string of decimal digits. */
  function ParseDigits(s: string): int
  {
    if |s| == 0 then 0 else ParseDigits(s[..|s| - 1]) * 10 + (s[|s| - 1] as int - 48)
  }

  /** Value of an optionally signed decimal string. */
  function ParseSigned(s: string): int
  {
    if |s| > 0 && s[0] == '-' then -ParseDigits(s[1..]) else ParseDigits(s)
  }

  lemma {:induction false} DigitsRoundTrip(n: nat)
    ensures ParseDigits(Digits(n)) == n
  {
    if n >= 10 {
      var s := Digits(n);
      assert s[..|s| - 1] == Digits(n / 10);
      DigitsRoundTrip(n / 10);
    }
  }

  lemma {:induction false} ParseConcat(a: string, b: string)
    ensures ParseDigits(a + b) == ParseDigits(a) * Pow10(|b|) + ParseDigits(b)
  {
    if |b| > 0 {
      var k := |b| - 1;
      assert (a + b)[..|a + b| - 1] == a + b[..k];
      ParseConcat(a, b[..k]);
      var x, y, p, d := ParseDigits(a), ParseDigits(b[..k]), Pow10(k), b[k] as int - 48;
      assert ParseDigits(a + b) == (x * p + y) * 10 + d;
      ShiftDigit(x, p, y, d);
    } else {
      assert a + b == a;
    }
  }

  lemma ShiftDigit(x: int, p: int, y: int, d: int)
    ensures (x * p + y) * 10 + d == x * (p * 10) + (y * 10 + d)
  {
  }

  lemma {:induction false} ParseZeros(k: nat)
    ensures ParseDigits(seq(k, _ => '0')) == 0
  {
    if k > 0 {
      assert seq(k, _ => '0')[..k - 1] == seq(k - 1, _ => '0');
      ParseZeros(k - 1);
    }
  }

  lemma ZeroPadRoundTrip(s: string, w: nat)
    ensures ParseDigits(ZeroPad(s, w)) == ParseDigits(s)
  {
    if |s| < w {
      ParseConcat(seq(w - |s|, _ => '0'), s);
      ParseZeros(w - |s|);
    }
  }

  /** `%06d` loses nothing: the number reads back from its text. */
  lemma Fmt06dRoundTrip(i: int)
    ensures ParseSigned(Fmt06d(i)) == i
  {
    if i >= 0 {
      ZeroPadRoundTrip(Digits(i), 6);
      DigitsRoundTrip(i);
    } else {
      var s := Fmt06d(i);
      assert s[1..] == ZeroPad(Digits(-i), 5);
      ZeroPadRoundTrip(Digits(-i), 5);
      DigitsRoundTrip(-i);
    }
  }

  lemma Fmt06dInjective(i: int, j: int)
    ensures Fmt06d(i) == Fmt06d(j) ==> i == j
  {
    Fmt06dRoundTrip(i);
    Fmt06dRoundTrip(j);
  }

  lemma {:induction false} DigitsLength(n: nat, k: nat)
    requires k >= 1 && n < Pow10(k)
    ensures |Digits(n)| <= k
  {
    if n >= 10 {
      DigitsLength(n / 10, k - 1);
    }
  }

  /** Indices below a million print as exactly six characters. */
  lemma Fmt06dWidth(i: int)
    requires 0 <= i < 1000000
    ensures |Fmt06d(i)| == 6
  {
    assert Pow10(6) == 1000000;
    DigitsLength(i, 6);
  }

  // ---------------------------------------------------------------------
  // File names

  /** The buffer of `snprintf(buf, 999, ...)`: the first 998 characters. */
  function Truncated(s: string): (r: string)
    ensures |r| <= NameLimit && |r| <= |s| && r == s[..|r|]
    ensures |s| <= NameLimit ==> r == s
  {
    if |s| <= NameLimit then s else s[..NameLimit]
  }

  /** "<dir>/<prefix>_<%06d i>.root" before the buffer limit. */
  function NoRuntimeFullName(c: Config, i: int): string
  {
    c.outputDirectory + "/" + c.outputPrefix + "_" + Fmt06d(i) + ".root"
  }

  function NoRuntimeName(c: Config, i: int): string
  {
    Truncated(NoRuntimeFullName(c, i))
  }

  /** "<dir>/<prefix>_r<%06d run>_<%06d subrun>.root" before the buffer
      limit. */
  function RuntimeFullName(c: Config, run: int, subrun: int): string
  {
    c.outputDirectory + "/" + c.outputPrefix + "_r" + RunTag(run, subrun) + ".root"
  }

  function RunTag(run: int, subrun: int): string
  {
    Fmt06d(run) + "_" + Fmt06d(subrun)
  }

  function RuntimeName(c: Config, run: int, subrun: int): string
  {
    Truncated(RuntimeFullName(c, run, subrun))
  }

  /** Strip a common head and a common tail: equal strings with equal
      head and tail have equal middles. */
  lemma SplitMiddle(h: string, m1: string, m2: string, t: string)
    requires h + m1 + t == h + m2 + t
    ensures m1 == m2
  {
    var s1, s2 := h + m1 + t, h + m2 + t;
    assert |m1| == |m2|;
    assert s1[|h|..|h| + |m1|] == m1;
    assert s2[|h|..|h| + |m2|] == m2;
  }

  /** While the names fit the buffer, distinct file indices give distinct
      names. */
  lemma NoRuntimeNamesDistinct(c: Config, i: int, j: int)
    requires |NoRuntimeFullName(c, i)| <= NameLimit && |NoRuntimeFullName(c, j)| <= NameLimit
    requires NoRuntimeName(c, i) == NoRuntimeName(c, j)
    ensures i == j
  {
    var h := c.outputDirectory + "/" + c.outputPrefix + "_";
    assert NoRuntimeFullName(c, i) == h + Fmt06d(i) + ".root";
    assert NoRuntimeFullName(c, j) == h + Fmt06d(j) + ".root";
    SplitMiddle(h, Fmt06d(i), Fmt06d(j), ".root");
    Fmt06dInjective(i, j);
  }

  lemma FirstUnderscore(a: string, b: string)
    requires forall k :: 0 <= k < |a| ==> a[k] != '_'
    ensures forall k :: 0 <= k < |a| ==> (a + "_" + b)[k] != '_'
    ensures (a + "_" + b)[|a|] == '_'
  {
    forall k | 0 <= k < |a|
      ensures (a + "_" + b)[k] != '_'
    {
      assert (a + "_" + b)[k] == a[k];
    }
  }

  /** Two `_`-free texts joined by `_` split back uniquely. */
  lemma SplitAtUnderscore(a: string, b: string, x: string, y: string)
    requires forall k :: 0 <= k < |a| ==> a[k] != '_'
    requires forall k :: 0 <= k < |x| ==> x[k] != '_'
    requires a + "_" + b == x + "_" + y
    ensures a == x && b == y
  {
    var s, t := a + "_" + b, x + "_" + y;
    FirstUnderscore(a, b);
    FirstUnderscore(x, y);
    assert |a| == |x|;
    assert a == s[..|a|] && x == t[..|x|];
    assert b == s[|a| + 1..] && y == t[|x| + 1..];
  }

  lemma NoUnderscore(i: int)
    ensures forall k :: 0 <= k < |Fmt06d(i)| ==> Fmt06d(i)[k] != '_'
  {
  }

  /** While the names fit the buffer, distinct (run, subrun) pairs give
      distinct names. */
  lemma RuntimeNamesDistinct(c: Config, r1: int, s1: int, r2: int, s2: int)
    requires |RuntimeFullName(c, r1, s1)| <= NameLimit && |RuntimeFullName(c, r2, s2)| <= NameLimit
    requires RuntimeName(c, r1, s1) == RuntimeName(c, r2, s2)
    ensures r1 == r2 && s1 == s2
  {
    var h := c.outputDirectory + "/" + c.outputPrefix + "_r";
    SplitMiddle(h, RunTag(r1, s1), RunTag(r2, s2), ".root");
    NoUnderscore(r1);
    NoUnderscore(r2);
    SplitAtUnderscore(Fmt06d(r1), Fmt06d(s1), Fmt06d(r2), Fmt06d(s2));
    Fmt06dInjective(r1, r2);
    Fmt06dInjective(s1, s2);
  }

  // ---------------------------------------------------------------------
  // Files of fixed size

  /** Full-size file number i. */
  function FullFile(c: Config, i: int): FileSet
  {
    FileSet(NoRuntimeName(c, i), McRun, -1, c.numEventsPerFile)
  }

  /** Files 0..n-1, each of the full size. */
  function FullFiles(c: Config, n: int): (r: seq<FileSet>)
    ensures |r| == if n > 0 then n else 0
    ensures forall i :: 0 <= i < |r| ==> r[i] == FullFile(c, i)
  {
    if n <= 0 then []
    else
      var prev := FullFiles(c, n - 1);
      SnocIndex(prev, FullFile(c, n - 1));
      prev + [FullFile(c, n - 1)]
  }

  /** The fixed-size plan: `numEvents / numEventsPerFile` full files, then
      one file with the remainder when it is not zero; nothing when the
      plan follows the live time. */
  function NoRuntimeList(c: Config): seq<FileSet>
    requires !c.normRuntime ==> c.numEventsPerFile != 0
  {
    if c.normRuntime then []
    else
      var nfile := CDiv(c.numEvents, c.numEventsPerFile);
      var rem := CMod(c.numEvents, c.numEventsPerFile);
      FullFiles(c, nfile) + (if rem != 0 then [FileSet(NoRuntimeName(c, nfile), McRun, -1, rem)] else [])
  }

  method GenerateOutputFileListNoRuntime(c: Config) returns (flist: seq<FileSet>)
    requires !c.normRuntime ==> c.numEventsPerFile != 0
    ensures flist == NoRuntimeList(c)
  {
    flist := [];
    if c.normRuntime {
      return;
    }
    var nfile := CDiv(c.numEvents, c.numEventsPerFile);
    var rem := CMod(c.numEvents, c.numEventsPerFile);
    var i := 0;
    while i < nfile
      invariant 0 <= i <= (if nfile > 0 then nfile else 0)
      invariant flist == FullFiles(c, i)
    {
      flist := flist + [FullFile(c, i)];
      i := i + 1;
    }
    assert flist == FullFiles(c, nfile);
    if rem != 0 {
      flist := flist + [FileSet(NoRuntimeName(c, nfile), McRun, -1, rem)];
    }
  }

  function TotalEvents(l: seq<FileSet>): int
  {
    if |l| == 0 then 0 else TotalEvents(l[..|l| - 1]) + l[|l| - 1].nev
  }

  lemma {:induction false} FullFilesTotal(c: Config, n: nat)
    ensures TotalEvents(FullFiles(c, n)) == n * c.numEventsPerFile
  {
    if n > 0 {
      FullFilesTotal(c, n - 1);
      TotalEventsAppend(FullFiles(c, n - 1), FullFile(c, n - 1));
      MulPred(n, c.numEventsPerFile);
    }
  }

  lemma DivNonneg(a: int, b: int)
    requires a >= 0 && b > 0
    ensures a / b >= 0
  {
  }

  lemma MulPred(n: int, p: int)
    ensures n * p == (n - 1) * p + p
  {
  }

  lemma TotalEventsAppend(l: seq<FileSet>, f: FileSet)
    ensures TotalEvents(l + [f]) == TotalEvents(l) + f.nev
  {
    assert (l + [f])[..|l|] == l;
  }

  /** The fixed-size plan splits the requested total exactly: N / perFile
      files of perFile events, one more of N % perFile events iff that is
      not zero, and the counts add up to N. */
  lemma NoRuntimePartition(c: Config)
    requires !c.normRuntime && c.numEvents >= 0 && c.numEventsPerFile > 0
    ensures var l := NoRuntimeList(c);
      var nfile := c.numEvents / c.numEventsPerFile;
      var rem := c.numEvents % c.numEventsPerFile;
      |l| == nfile + (if rem != 0 then 1 else 0)
      && (forall k :: 0 <= k < nfile ==> l[k].nev == c.numEventsPerFile)
      && (rem != 0 ==> l[nfile].nev == rem)
      && TotalEvents(l) == c.numEvents
  {
    var nfile, rem := c.numEvents / c.numEventsPerFile, c.numEvents % c.numEventsPerFile;
    var full := FullFiles(c, nfile);
    var tail := if rem != 0 then [FileSet(NoRuntimeName(c, nfile), McRun, -1, rem)] else [];
    assert NoRuntimeList(c) == full + tail;
    DivNonneg(c.numEvents, c.numEventsPerFile);
    FullFilesTotal(c, nfile);
    PlanSplit(full, tail, c.numEventsPerFile, rem);
    assert c.numEvents == nfile * c.numEventsPerFile + rem;
  }

  /** Full files followed by an optional remainder file. */
  lemma PlanSplit(full: seq<FileSet>, tail: seq<FileSet>, perFile: int, rem: int)
    requires forall k :: 0 <= k < |full| ==> full[k].nev == perFile
    requires tail == [] || (|tail| == 1 && tail[0].nev == rem)
    requires rem != 0 ==> tail != []
    ensures var l := full + tail;
      |l| == |full| + (if tail != [] then 1 else 0)
      && (forall k :: 0 <= k < |full| ==> l[k].nev == perFile)
      && (tail != [] ==> l[|full|].nev == rem)
      && TotalEvents(l) == TotalEvents(full) + (if tail != [] then rem else 0)
  {
    if tail != [] {
      TotalEventsAppend(full, tail[0]);
      assert full + tail == full + [tail[0]];
    } else {
      assert full + tail == full;
    }
  }

  /** Every fixed-size file is labelled with the Monte Carlo run and
      subrun -1, and file k is named with index k. */
  lemma NoRuntimeLabels(c: Config)
    requires c.numEventsPerFile != 0 && CDiv(c.numEvents, c.numEventsPerFile) >= 0
    ensures var l := NoRuntimeList(c);
      forall k :: 0 <= k < |l| ==> l[k].run == McRun && l[k].subrun == -1 && l[k].fileName == NoRuntimeName(c, k)
  {
  }

  // ---------------------------------------------------------------------
  // Run periods

  /** First and last runs of the detector periods. */
  datatype Periods = Periods(i3Begin: int, ivBegin: int, ivEnd: int, vBegin: int, vEnd: int,
                             viBegin: int, viEnd: int, viiBegin: int)

  /** The periods follow one another. */
  predicate Ordered(P: Periods)
  {
    P.i3Begin < P.ivBegin < P.ivEnd < P.vBegin < P.vEnd < P.viBegin < P.viEnd < P.viiBegin
  }

  /** The period a run belongs to, by its first run; upper bounds are
      inclusive, and runs before SK-IV or in a gap give the SK-I-III
      start. */
  function FindSKPeriod(P: Periods, run: int): (r: int)
    ensures r in {P.i3Begin, P.ivBegin, P.vBegin, P.viBegin, P.viiBegin}
    ensures r == P.i3Begin || r <= run
  {
    if run < P.ivBegin then P.i3Begin
    else if P.ivBegin <= run <= P.ivEnd then P.ivBegin
    else if P.vBegin <= run <= P.vEnd then P.vBegin
    else if P.viBegin <= run <= P.viEnd then P.viBegin
    else if P.viiBegin <= run then P.viiBegin
    else P.i3Begin
  }

  /** With ordered periods, each period start is returned exactly for the
      runs of that period (end included), SK-VII for every later run, and
      the SK-I-III start for earlier runs and gaps. */
  lemma FindSKPeriodCases(P: Periods, run: int)
    requires Ordered(P)
    ensures FindSKPeriod(P, run) == P.ivBegin <==> P.ivBegin <= run <= P.ivEnd
    ensures FindSKPeriod(P, run) == P.vBegin <==> P.vBegin <= run <= P.vEnd
    ensures FindSKPeriod(P, run) == P.viBegin <==> P.viBegin <= run <= P.viEnd
    ensures FindSKPeriod(P, run) == P.viiBegin <==> P.viiBegin <= run
    ensures FindSKPeriod(P, run) == P.i3Begin <==>
              run < P.ivBegin || P.ivEnd < run < P.vBegin || P.vEnd < run < P.viBegin || P.viEnd < run < P.viiBegin
  {
  }

  const TimeFileIV: string := "/home/sklowe/realtime_sk4_rep/solar_apr19/timevent/livesubruns.r061525.r077958"
  const TimeFileV: string := "/home/sklowe/realtime_sk5_rep/solar_nov20/timevent/livesubruns.r080539.r082915"
  const TimeFileVI: string := "/home/sklowe/realtime_sk6_rep/solar_may22/timevent/livesubruns.r085000.r087073"

  /** The live-time file of a run; upper bounds are exclusive here, and
      there is none ("") before SK-IV, from SK-VII on, or in a gap. */
  function FindTimeFile(P: Periods, run: int): (f: string)
    ensures f in {"", TimeFileIV, TimeFileV, TimeFileVI}
  {
    if run < P.ivBegin || run >= P.viiBegin then ""
    else if P.ivBegin <= run < P.ivEnd then TimeFileIV
    else if P.vBegin <= run < P.vEnd then TimeFileV
    else if P.viBegin <= run < P.viEnd then TimeFileVI
    else ""
  }

  /** The two lookups agree except at a period's last run, which has a
      period but no live-time file. */
  lemma TimeFileAgreesWithPeriod(P: Periods, run: int)
    requires Ordered(P)
    ensures FindTimeFile(P, run) == TimeFileIV <==> FindSKPeriod(P, run) == P.ivBegin && run != P.ivEnd
    ensures FindTimeFile(P, run) == TimeFileV <==> FindSKPeriod(P, run) == P.vBegin && run != P.vEnd
    ensures FindTimeFile(P, run) == TimeFileVI <==> FindSKPeriod(P, run) == P.viBegin && run != P.viEnd
    ensures FindTimeFile(P, run) == "" <==>
              FindSKPeriod(P, run) in {P.i3Begin, P.viiBegin} || run in {P.ivEnd, P.vEnd, P.viEnd}
  {
    FindSKPeriodCases(P, run);
  }

  // ---------------------------------------------------------------------
  // Filtering in place

  /** The elements of xs that keep accepts, in order. */
  function Filter<T>(xs: seq<T>, keep: T -> bool): (r: seq<T>)
    ensures |r| <= |xs|
  {
    if |xs| == 0 then []
    else Filter(xs[..|xs| - 1], keep) + (if keep(xs[|xs| - 1]) then [xs[|xs| - 1]] else [])
  }

  lemma {:induction false} FilterMembership<T>(xs: seq<T>, keep: T -> bool, x: T)
    ensures x in Filter(xs, keep) <==> x in xs && keep(x)
  {
    if |xs| > 0 {
      var k := |xs| - 1;
      FilterMembership(xs[..k], keep, x);
      assert xs == xs[..k] + [xs[k]];
    }
  }

  /** Filtering keeps relative order: it distributes over concatenation. */
  lemma {:induction false} FilterConcat<T>(a: seq<T>, b: seq<T>, keep: T -> bool)
    ensures Filter(a + b, keep) == Filter(a, keep) + Filter(b, keep)
  {
    if |b| == 0 {
      assert a + b == a;
    } else {
      var k := |b| - 1;
      assert (a + b)[..|a + b| - 1] == a + b[..k];
      FilterConcat(a, b[..k], keep);
    }
  }

  /** `for(it = v.begin(); it != v.end();) if(keep(*it)) it++; else it = v.erase(it);` */
  method EraseUnless<T>(xs: seq<T>, keep: T -> bool) returns (ys: seq<T>)
    ensures ys == Filter(xs, keep)
  {
    ys := xs;
    var i, j := 0, 0;
    while i < |ys|
      invariant 0 <= j <= |xs| && 0 <= i <= |ys|
      invariant ys[..i] == Filter(xs[..j], keep) && ys[i..] == xs[j..]
      decreases |ys| - i
    {
      assert xs[..j + 1][..j] == xs[..j];
      assert xs[j] == ys[i];
      if keep(ys[i]) {
        i := i + 1;
      } else {
        ys := ys[..i] + ys[i + 1..];
      }
      j := j + 1;
    }
    assert xs[..j] == xs;
  }

  // ---------------------------------------------------------------------
  // Live time

  datatype TimeRecord = TimeRecord(run: int, subrun: int, time: real)
  datatype RunEvents = RunEvents(run: int, subrun: int, nev: int)

  /** The period starts, in the order a set of them is visited when the
      periods are ordered. */
  function PeriodStarts(P: Periods): seq<int>
  {
    [P.ivBegin, P.vBegin, P.viBegin, P.viiBegin]
  }

  function InPeriodRange(lo: int, hi: int): int -> bool
  {
    (p: int) => lo <= p <= hi
  }

  function InRunRange(runBegin: int, runEnd: int): TimeRecord -> bool
  {
    (t: TimeRecord) => runBegin <= t.run < runEnd
  }

  /** The periods kept for a run range: those whose start lies between
      the periods of its two ends, both included. */
  function KeptPeriods(P: Periods, runBegin: int, runEnd: int): seq<int>
  {
    Filter(PeriodStarts(P), InPeriodRange(FindSKPeriod(P, runBegin), FindSKPeriod(P, runEnd)))
  }

  lemma KeptPeriodsExact(P: Periods, runBegin: int, runEnd: int, p: int)
    ensures p in KeptPeriods(P, runBegin, runEnd) <==>
              p in PeriodStarts(P) && FindSKPeriod(P, runBegin) <= p <= FindSKPeriod(P, runEnd)
  {
    FilterMembership(PeriodStarts(P), InPeriodRange(FindSKPeriod(P, runBegin), FindSKPeriod(P, runEnd)), p);
  }

  /** `LoadTimeEventsFromFile(buffer, p)`: the buffer is cleared, then
      holds the records of the period's live-time file, if it has one. */
  function LoadPeriod(P: Periods, files: string -> seq<TimeRecord>, p: int): seq<TimeRecord>
  {
    var f := FindTimeFile(P, p);
    if f == "" then [] else files(f)
  }

  /** `LoadTimeEventsFromFile` as a function of the period. */
  function Loader(P: Periods, files: string -> seq<TimeRecord>): int -> seq<TimeRecord>
  {
    p => LoadPeriod(P, files, p)
  }

  /** The records of every kept period, one period after the other. */
  function ConcatPeriods(load: int -> seq<TimeRecord>, kept: seq<int>): seq<TimeRecord>
  {
    if |kept| == 0 then [] else ConcatPeriods(load, kept[..|kept| - 1]) + load(kept[|kept| - 1])
  }

  /** The loading loop as the source writes it: each call clears the
      buffer, so only the last kept period is left. */
  method LoadPeriodsAsWritten(load: int -> seq<TimeRecord>, kept: seq<int>)
    returns (runtime: seq<TimeRecord>)
    ensures runtime == if |kept| == 0 then [] else load(kept[|kept| - 1])
  {
    runtime := [];
    for k := 0 to |kept|
      invariant runtime == if k == 0 then [] else load(kept[k - 1])
    {
      runtime := load(kept[k]);
    }
  }

  /** The loading loop with the records of each period appended. */
  method LoadPeriods(load: int -> seq<TimeRecord>, kept: seq<int>)
    returns (runtime: seq<TimeRecord>)
    ensures runtime == ConcatPeriods(load, kept)
  {
    runtime := [];
    for k := 0 to |kept|
      invariant runtime == ConcatPeriods(load, kept[..k])
    {
      assert kept[..k + 1][..k] == kept[..k];
      runtime := runtime + load(kept[k]);
    }
    assert kept[..|kept|] == kept;
  }

  /** A record is loaded iff it belongs to one of the kept periods. */
  lemma {:induction false} ConcatPeriodsMembership(load: int -> seq<TimeRecord>, kept: seq<int>, t: TimeRecord)
    ensures t in ConcatPeriods(load, kept) <==> exists k :: 0 <= k < |kept| && t in load(kept[k])
  {
    if |kept| > 0 {
      var n := |kept| - 1;
      var pre := kept[..n];
      ConcatPeriodsMembership(load, pre, t);
      if t in ConcatPeriods(load, kept) && t !in load(kept[n]) {
        var k :| 0 <= k < n && t in load(pre[k]);
        assert pre[k] == kept[k];
      }
      if exists k :: 0 <= k < |kept| && t in load(kept[k]) {
        var k :| 0 <= k < |kept| && t in load(kept[k]);
        if k < n {
          assert pre[k] == kept[k];
        }
      }
    }
  }

  /** `convDoubleToInt`: the expected count d * w truncated, plus one
      unless the fraction is below the draw. */
  function ConvDoubleToInt(d: real, w: real, rand: real): (n: int)
    ensures n == Trunc(d * w) || n == Trunc(d * w) + 1
  {
    var x := d * w;
    var n := Trunc(x);
    var frac := x - n as real;
    if frac < rand then n else n + 1
  }

  /** For a non-negative expectation and a draw in [0, 1) this is
      stochastic rounding: the floor, plus one exactly for the draws in
      [0, frac] — an interval of the fraction's length, ties included —
      so the count is within one of the expectation. */
  lemma StochasticRounding(d: real, w: real, rand: real)
    requires d * w >= 0.0 && 0.0 <= rand < 1.0
    ensures var x := d * w;
      ConvDoubleToInt(d, w, rand) == x.Floor + (if rand <= x - x.Floor as real then 1 else 0)
      && 0.0 <= x - x.Floor as real < 1.0
      && x - 1.0 < ConvDoubleToInt(d, w, rand) as real <= x + 1.0
  {
  }

  /** An exact expectation is inflated by one only on a zero draw. */
  lemma ExactCountTie(d: real, w: real, n: nat, rand: real)
    requires d * w == n as real && 0.0 <= rand < 1.0
    ensures ConvDoubleToInt(d, w, rand) == if rand == 0.0 then n + 1 else n
  {
  }

  /** The entry of one record: its run and subrun, and its count. */
  function RunEventOf(t: TimeRecord, weight: real, rand: real): RunEvents
  {
    RunEvents(t.run, t.subrun, ConvDoubleToInt(t.time, weight, rand))
  }

  /** One entry per record, in order, the k-th drawn with the k-th draw. */
  function RunEventsOf(runtime: seq<TimeRecord>, weight: real, rnd: nat -> real): (r: seq<RunEvents>)
    ensures |r| == |runtime|
    ensures forall k :: 0 <= k < |r| ==> r[k] == RunEventOf(runtime[k], weight, rnd(k))
  {
    if |runtime| == 0 then []
    else
      var k := |runtime| - 1;
      RunEventsOf(runtime[..k], weight, rnd) + [RunEventOf(runtime[k], weight, rnd(k))]
  }

  /** The records the source keeps for a run range: the loading loop
      leaves the records of the last kept period only, and of those the
      ones whose run lies in [runBegin, runEnd). */
  function RuntimeOf(P: Periods, files: string -> seq<TimeRecord>, runBegin: int, runEnd: int): seq<TimeRecord>
  {
    var kept := KeptPeriods(P, runBegin, runEnd);
    Filter(if |kept| == 0 then [] else LoadPeriod(P, files, kept[|kept| - 1]), InRunRange(runBegin, runEnd))
  }

  /** The records of every kept period whose run lies in [runBegin,
      runEnd), as the loader would give them if it appended. */
  function RuntimeOfIntended(P: Periods, files: string -> seq<TimeRecord>, runBegin: int, runEnd: int): seq<TimeRecord>
  {
    Filter(ConcatPeriods(Loader(P, files), KeptPeriods(P, runBegin, runEnd)), InRunRange(runBegin, runEnd))
  }

  /** `ReadTimeEventFile`: (run, subrun, event count) for every record the
      source keeps, with `nevPerMin / 60` events per unit of live time. */
  function ReadTimeEvents(P: Periods, files: string -> seq<TimeRecord>, rnd: nat -> real,
                          runBegin: int, runEnd: int, nevPerMin: real): seq<RunEvents>
  {
    RunEventsOf(RuntimeOf(P, files, runBegin, runEnd), nevPerMin / 60.0, rnd)
  }

  /** The same list over the records of every kept period. */
  function ReadTimeEventsIntended(P: Periods, files: string -> seq<TimeRecord>, rnd: nat -> real,
                                  runBegin: int, runEnd: int, nevPerMin: real): seq<RunEvents>
  {
    RunEventsOf(RuntimeOfIntended(P, files, runBegin, runEnd), nevPerMin / 60.0, rnd)
  }

  /** The tail of `ReadTimeEventFile`: erase the records outside the run
      range, then push one rounded entry per remaining record. */
  method CountLiveRecords(loaded: seq<TimeRecord>, rnd: nat -> real, runBegin: int, runEnd: int, nevPerMin: real)
    returns (runev: seq<RunEvents>)
    ensures runev == RunEventsOf(Filter(loaded, InRunRange(runBegin, runEnd)), nevPerMin / 60.0, rnd)
  {
    var runtime := EraseUnless(loaded, InRunRange(runBegin, runEnd));
    var weight := nevPerMin / 60.0;
    ghost var all := RunEventsOf(runtime, weight, rnd);
    runev := [];
    for k := 0 to |runtime|
      invariant runev == all[..k]
    {
      TakeNext(all, k);
      runev := runev + [RunEventOf(runtime[k], weight, rnd(k))];
    }
  }

  /** `ReadTimeEventFile` as written: the period erase loop, the loading
      loop whose every call replaces the buffer, then the run filter and
      the rounding. */
  method ReadTimeEventFile(P: Periods, files: string -> seq<TimeRecord>, rnd: nat -> real,
                           runBegin: int, runEnd: int, nevPerMin: real)
    returns (runev: seq<RunEvents>)
    ensures runev == ReadTimeEvents(P, files, rnd, runBegin, runEnd, nevPerMin)
  {
    var periodBegin := FindSKPeriod(P, runBegin);
    var periodEnd := FindSKPeriod(P, runEnd);
    var kept := EraseUnless(PeriodStarts(P), InPeriodRange(periodBegin, periodEnd));
    assert kept == KeptPeriods(P, runBegin, runEnd);
    var loaded := LoadPeriodsAsWritten(Loader(P, files), kept);
    assert loaded == if |kept| == 0 then [] else LoadPeriod(P, files, kept[|kept| - 1]);
    runev := CountLiveRecords(loaded, rnd, runBegin, runEnd, nevPerMin);
  }

  /** The same with the records of each kept period appended. */
  method ReadTimeEventFileIntended(P: Periods, files: string -> seq<TimeRecord>, rnd: nat -> real,
                                   runBegin: int, runEnd: int, nevPerMin: real)
    returns (runev: seq<RunEvents>)
    ensures runev == ReadTimeEventsIntended(P, files, rnd, runBegin, runEnd, nevPerMin)
  {
    var periodBegin := FindSKPeriod(P, runBegin);
    var periodEnd := FindSKPeriod(P, runEnd);
    var kept := EraseUnless(PeriodStarts(P), InPeriodRange(periodBegin, periodEnd));
    var loaded := LoadPeriods(Loader(P, files), kept);
    runev := CountLiveRecords(loaded, rnd, runBegin, runEnd, nevPerMin);
  }

  /** As written, a record survives iff its run is in [runBegin, runEnd)
      and it belongs to the last kept period. */
  lemma RuntimeFilterExact(P: Periods, files: string -> seq<TimeRecord>, runBegin: int, runEnd: int, t: TimeRecord)
    ensures var kept := KeptPeriods(P, runBegin, runEnd);
      t in RuntimeOf(P, files, runBegin, runEnd) <==>
        runBegin <= t.run < runEnd && |kept| > 0 && t in LoadPeriod(P, files, kept[|kept| - 1])
  {
    var kept := KeptPeriods(P, runBegin, runEnd);
    FilterMembership(if |kept| == 0 then [] else LoadPeriod(P, files, kept[|kept| - 1]),
                     InRunRange(runBegin, runEnd), t);
  }

  /** Appending, a record survives iff its run is in [runBegin, runEnd)
      and it belongs to one of the kept periods. */
  lemma RuntimeFilterExactIntended(P: Periods, files: string -> seq<TimeRecord>, runBegin: int, runEnd: int, t: TimeRecord)
    ensures t in RuntimeOfIntended(P, files, runBegin, runEnd) <==>
              runBegin <= t.run < runEnd &&
              exists k :: 0 <= k < |KeptPeriods(P, runBegin, runEnd)| &&
                          t in LoadPeriod(P, files, KeptPeriods(P, runBegin, runEnd)[k])
  {
    var kept := KeptPeriods(P, runBegin, runEnd);
    FilterMembership(ConcatPeriods(Loader(P, files), kept), InRunRange(runBegin, runEnd), t);
    ConcatPeriodsMembership(Loader(P, files), kept, t);
  }

  // ---------------------------------------------------------------------
  // Files following the live time

  /** The file of one live subrun, named after its run and subrun. */
  function FileSetOf(c: Config, e: RunEvents): FileSet
  {
    FileSet(RuntimeName(c, e.run, e.subrun), e.run, e.subrun, e.nev)
  }

  /** One file per entry of `runev`, in order. */
  function FileSetsOf(c: Config, runev: seq<RunEvents>): seq<FileSet>
  {
    seq(|runev|, k requires 0 <= k < |runev| => FileSetOf(c, runev[k]))
  }

  /** The live-time plan: one file per live subrun of the configured run
      range; nothing when the plan does not follow the live time. */
  function RuntimeList(c: Config, P: Periods, files: string -> seq<TimeRecord>, rnd: nat -> real): seq<FileSet>
  {
    if !c.normRuntime then []
    else FileSetsOf(c, ReadTimeEvents(P, files, rnd, c.runtimeRunBegin, c.runtimeRunEnd, c.runtimeFactor))
  }

  method GenerateOutputFileListRuntime(c: Config, P: Periods, files: string -> seq<TimeRecord>, rnd: nat -> real)
    returns (buffer: seq<FileSet>)
    ensures buffer == RuntimeList(c, P, files, rnd)
  {
    buffer := [];
    if !c.normRuntime {
      return;
    }
    var runev := ReadTimeEventFile(P, files, rnd, c.runtimeRunBegin, c.runtimeRunEnd, c.runtimeFactor);
    buffer := FileSetsFor(c, runev);
  }

  /** The loop over `runev` that names and pushes one file per entry. */
  method FileSetsFor(c: Config, runev: seq<RunEvents>) returns (buffer: seq<FileSet>)
    ensures buffer == FileSetsOf(c, runev)
  {
    ghost var all := FileSetsOf(c, runev);
    buffer := [];
    for k := 0 to |runev|
      invariant buffer == all[..k]
    {
      FileSetsOfPrefix(c, runev, k);
      buffer := buffer + [FileSetOf(c, runev[k])];
    }
  }

  lemma FileSetsOfPrefix(c: Config, runev: seq<RunEvents>, k: nat)
    requires k < |runev|
    ensures FileSetsOf(c, runev)[..k + 1] == FileSetsOf(c, runev)[..k] + [FileSetOf(c, runev[k])]
  {
    var all := FileSetsOf(c, runev);
    assert all[k] == FileSetOf(c, runev[k]);
    TakeNext(all, k);
  }

  /** Each live-time file mirrors one kept record: same run and subrun,
      named after them, with the rounded count of that record's live time
      at `runtimeFactor / 60` events per unit. */
  lemma RuntimeMirrors(c: Config, P: Periods, files: string -> seq<TimeRecord>, rnd: nat -> real)
    requires c.normRuntime
    ensures var rt := RuntimeOf(P, files, c.runtimeRunBegin, c.runtimeRunEnd);
      var l := RuntimeList(c, P, files, rnd);
      |l| == |rt| &&
      forall k :: 0 <= k < |l| ==>
        l[k].run == rt[k].run && l[k].subrun == rt[k].subrun
        && l[k].fileName == RuntimeName(c, rt[k].run, rt[k].subrun)
        && l[k].nev == ConvDoubleToInt(rt[k].time, c.runtimeFactor / 60.0, rnd(k))
  {
    var rt := RuntimeOf(P, files, c.runtimeRunBegin, c.runtimeRunEnd);
    MirrorsRecords(c, rt, c.runtimeFactor / 60.0, rnd);
  }

  lemma MirrorsRecords(c: Config, rt: seq<TimeRecord>, weight: real, rnd: nat -> real)
    ensures var l := FileSetsOf(c, RunEventsOf(rt, weight, rnd));
      |l| == |rt| &&
      forall k :: 0 <= k < |l| ==>
        l[k].run == rt[k].run && l[k].subrun == rt[k].subrun
        && l[k].fileName == RuntimeName(c, rt[k].run, rt[k].subrun)
        && l[k].nev == ConvDoubleToInt(rt[k].time, weight, rnd(k))
  {
    var runev := RunEventsOf(rt, weight, rnd);
    var l := FileSetsOf(c, runev);
    forall k | 0 <= k < |l|
      ensures l[k].run == rt[k].run && l[k].subrun == rt[k].subrun
      ensures l[k].fileName == RuntimeName(c, rt[k].run, rt[k].subrun)
      ensures l[k].nev == ConvDoubleToInt(rt[k].time, weight, rnd(k))
    {
      assert l[k] == FileSetOf(c, runev[k]);
      assert runev[k] == RunEventOf(rt[k], weight, rnd(k));
    }
  }

  /** `GenerateOutputFileList`: the live-time plan iff the configuration
      asks for it. */
  method GenerateOutputFileList(c: Config, P: Periods, files: string -> seq<TimeRecord>, rnd: nat -> real)
    returns (flist: seq<FileSet>)
    requires !c.normRuntime ==> c.numEventsPerFile != 0
    ensures c.normRuntime ==> flist == RuntimeList(c, P, files, rnd)
    ensures !c.normRuntime ==> flist == NoRuntimeList(c)
  {
    if c.normRuntime {
      flist := GenerateOutputFileListRuntime(c, P, files, rnd);
    } else {
      flist := GenerateOutputFileListNoRuntime(c);
    }
  }

  /** The two plans exclude each other: the one not selected is empty. */
  lemma PlansExclusive(c: Config, P: Periods, files: string -> seq<TimeRecord>, rnd: nat -> real)
    requires !c.normRuntime ==> c.numEventsPerFile != 0
    ensures c.normRuntime ==> NoRuntimeList(c) == []
    ensures !c.normRuntime ==> RuntimeList(c, P, files, rnd) == []
  {
  }

  // ---------------------------------------------------------------------
  // Loading all periods

  lemma FilterPair<T>(a: T, b: T, keep: T -> bool)
    ensures Filter([a, b], keep) == (if keep(a) then [a] else []) + (if keep(b) then [b] else [])
  {
    assert [a, b][..1] == [a];
    assert [a][..0] == [];
  }

  /** A run range from the start of SK-IV into SK-V, with a live-time
      record in SK-IV: clearing the buffer on every load drops it, while
      appending keeps it. */
  lemma ClearingDropsEarlierPeriods(P: Periods, rec: TimeRecord)
    requires Ordered(P) && rec.run == P.ivBegin
    ensures var files := (f: string) => if f == TimeFileIV then [rec] else [];
      && KeptPeriods(P, P.ivBegin, P.vBegin) == [P.ivBegin, P.vBegin]
      && RuntimeOf(P, files, P.ivBegin, P.vBegin) == []
      && RuntimeOfIntended(P, files, P.ivBegin, P.vBegin) == [rec]
  {
    var files := (f: string) => if f == TimeFileIV then [rec] else [];
    var kept := KeptPeriods(P, P.ivBegin, P.vBegin);
    KeptIvToV(P);
    assert TimeFileV != TimeFileIV;
    assert LoadPeriod(P, files, P.vBegin) == [];
    assert LoadPeriod(P, files, P.ivBegin) == [rec];
    var load := Loader(P, files);
    assert kept[..1] == [P.ivBegin] && [P.ivBegin][..0] == [];
    assert ConcatPeriods(load, [P.ivBegin]) == load(P.ivBegin) == [rec];
    assert ConcatPeriods(load, kept) == ConcatPeriods(load, [P.ivBegin]) + load(P.vBegin);
    assert [rec][..0] == [];
    assert RuntimeOf(P, files, P.ivBegin, P.vBegin) == Filter([], InRunRange(P.ivBegin, P.vBegin));
  }

  /** From the start of SK-IV to the start of SK-V the loader visits
      exactly those two periods. */
  lemma KeptIvToV(P: Periods)
    requires Ordered(P)
    ensures KeptPeriods(P, P.ivBegin, P.vBegin) == [P.ivBegin, P.vBegin]
  {
    assert FindSKPeriod(P, P.ivBegin) == P.ivBegin;
    assert FindSKPeriod(P, P.vBegin) == P.vBegin;
    var keep := InPeriodRange(P.ivBegin, P.vBegin);
    assert PeriodStarts(P) == [P.ivBegin, P.vBegin] + [P.viBegin, P.viiBegin];
    FilterConcat([P.ivBegin, P.vBegin], [P.viBegin, P.viiBegin], keep);
    FilterPair(P.ivBegin, P.vBegin, keep);
    FilterPair(P.viBegin, P.viiBegin, keep);
  }

  /** Once SK-VII is in the range, the last load is of a period without a
      live-time file, and clearing leaves nothing at all. */
  lemma ClearingWithSkVii(P: Periods, files: string -> seq<TimeRecord>, runBegin: int, runEnd: int)
    requires Ordered(P) && runEnd >= P.viiBegin
    ensures var kept := KeptPeriods(P, runBegin, runEnd);
      |kept| > 0 && LoadPeriod(P, files, kept[|kept| - 1]) == []
  {
    var lo := FindSKPeriod(P, runBegin);
    assert FindSKPeriod(P, runEnd) == P.viiBegin;
    var kept := KeptPeriods(P, runBegin, runEnd);
    assert lo <= P.viiBegin;
    FilterMembership(PeriodStarts(P), InPeriodRange(lo, P.viiBegin), P.viiBegin);
    assert kept == Filter(PeriodStarts(P)[..3], InPeriodRange(lo, P.viiBegin)) + [P.viiBegin];
  }

  /** So a run range that reaches SK-VII gets no live-time entry at all. */
  lemma SkViiRangeReadsNothing(P: Periods, files: string -> seq<TimeRecord>, rnd: nat -> real,
                               runBegin: int, runEnd: int, nevPerMin: real)
    requires Ordered(P) && runEnd >= P.viiBegin
    ensures ReadTimeEvents(P, files, rnd, runBegin, runEnd, nevPerMin) == []
  {
    ClearingWithSkVii(P, files, runBegin, runEnd);
    assert RuntimeOf(P, files, runBegin, runEnd) == Filter([], InRunRange(runBegin, runEnd));
  }
}
