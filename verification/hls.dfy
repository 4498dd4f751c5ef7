/** Bit rates and the multivariant playlist (backend/libs/pipeline/transcode.py, backend/libs/pipeline/hls.py). */
module Hls {
  import opened Text
  import opened Folds
  import opened Ladder
  import opened Sorting

  // ----------------------------------------------------------------- bit rates

  /** height -> kbps */
  const BITRATE_KBPS: map<nat, nat> := map[240 := 400, 360 := 800, 480 := 1400, 720 := 2800, 1080 := 5000]

  /** Python's `round` on the exact value num/den: nearest, ties to even. */
  function RoundHalfEven(num: nat, den: nat): (r: nat)
    requires 0 < den
    ensures 2 * num - den <= 2 * den * r <= 2 * num + den
  {
    var q, rest := num / den, num % den;
    assert 2 * den * q == 2 * num - 2 * rest;
    assert 2 * den * (q + 1) == 2 * den * q + 2 * den;
    if 2 * rest < den || (2 * rest == den && q % 2 == 0) then q else q + 1
  }

  function LowerRung(rung: nat): (lower: nat)
    requires 240 < rung < 1080
    ensures lower in BITRATE_KBPS && lower < rung
    ensures forall r :: r in BITRATE_KBPS && r < rung ==> r <= lower
  {
    if rung > 720 then 720 else if rung > 480 then 480 else if rung > 360 then 360 else 240
  }

  function UpperRung(rung: nat): (upper: nat)
    requires 240 < rung < 1080
    ensures upper in BITRATE_KBPS && rung < upper
    ensures forall r :: r in BITRATE_KBPS && rung < r ==> upper <= r
  {
    if rung < 360 then 360 else if rung < 480 then 480 else if rung < 720 then 720 else 1080
  }

  /** Interpolation between the neighbouring table entries, on the exact rational. */
  function Bitrate(rung: nat): nat {
    if rung in BITRATE_KBPS then BITRATE_KBPS[rung]
    else if rung <= 240 then BITRATE_KBPS[240]
    else if rung >= 1080 then BITRATE_KBPS[1080]
    else
      var lower, upper := LowerRung(rung), UpperRung(rung);
      var span := upper - lower;
      RoundHalfEven(BITRATE_KBPS[lower] * span + (rung - lower) * (BITRATE_KBPS[upper] - BITRATE_KBPS[lower]), span)
  }

  /** Twice the distance from the exact interpolated value is at most one. */
  lemma BitrateNearest(rung: nat)
    requires 240 <= rung <= 1080
    ensures rung <= 360 ==> -3 <= 6 * Bitrate(rung) - 2 * (1200 + 10 * (rung - 240)) <= 3
    ensures 360 <= rung <= 480 ==> Bitrate(rung) == 800 + 5 * (rung - 360)
    ensures 480 <= rung <= 720 ==> -6 <= 12 * Bitrate(rung) - 2 * (8400 + 35 * (rung - 480)) <= 6
    ensures 720 <= rung ==> -9 <= 18 * Bitrate(rung) - 2 * (25200 + 55 * (rung - 720)) <= 9
  {
  }

  lemma HalfRounds(q: nat)
    ensures RoundHalfEven(240 * q + 120, 240) == if q % 2 == 0 then q else q + 1
  {
  }

  /** Half-way between two integers, at every sixth rung from 483 to 717, the even one is taken. */
  lemma BitrateAtTies(k: nat)
    requires k < 40
    ensures Bitrate(483 + 6 * k) == if k % 2 == 1 then 1417 + 35 * k else 1418 + 35 * k
  {
    HalfRounds(1417 + 35 * k);
    assert LowerRung(483 + 6 * k) == 480 && UpperRung(483 + 6 * k) == 720;
  }

  /** BANDWIDTH never falls as the rung rises, and rises strictly between the table's ends. */
  lemma BitrateMonotone(a: nat, b: nat)
    requires a <= b
    ensures Bitrate(a) <= Bitrate(b)
    ensures 240 <= a < b <= 1080 ==> Bitrate(a) < Bitrate(b)
  {
    if 240 <= a < b <= 1080 {
      BitrateNearest(a);
      BitrateNearest(b);
    } else if a <= 240 {
      if 240 <= b <= 1080 { BitrateNearest(b); }
    } else if a <= 1080 {
      BitrateNearest(a);
    }
  }

  /** `sorted(renditions, key=lambda r: int(r.rstrip("p")))`. */
  function SortByRung(rs: seq<Rendition>): seq<Rendition> {
    SortBy(Rung, rs)
  }

  // ------------------------------------------------------------ master playlist

  const HEADER: string := "#EXTM3U"
  const VERSION: string := "#EXT-X-VERSION:3"
  const STREAM_INF: string := "#EXT-X-STREAM-INF:BANDWIDTH="

  function Uri(r: Rendition): string {
    r + "/playlist.m3u8"
  }

  function BandwidthOf(r: Rendition): nat {
    Bitrate(Rung(r)) * 1000
  }

  function VariantLines(r: Rendition): seq<string> {
    [STREAM_INF + Dec(BandwidthOf(r)), Uri(r)]
  }

  function StreamLines(ordered: seq<Rendition>): seq<string> {
    Flattened(VariantLines, ordered)
  }

  function MasterText(renditions: seq<Rendition>): string {
    Unlines([HEADER, VERSION] + StreamLines(SortByRung(renditions)))
  }

  lemma StreamsExtend(ordered: seq<Rendition>, i: nat)
    requires i < |ordered|
    ensures StreamLines(ordered[..i + 1]) == StreamLines(ordered[..i]) + [STREAM_INF + Dec(BandwidthOf(ordered[i])), Uri(ordered[i])]
  {
    assert ordered[..i + 1][..i] == ordered[..i];
  }

  /** The source's loop: one attribute line and one URI line a rendition, smallest first. */
  method BuildMasterPlaylist(renditions: seq<Rendition>) returns (text: string)
    ensures text == MasterText(renditions)
  {
    var ordered := SortByRung(renditions);
    var lines := [HEADER, VERSION];
    for i := 0 to |ordered|
      invariant lines == [HEADER, VERSION] + StreamLines(ordered[..i])
    {
      var bandwidth := Bitrate(Rung(ordered[i])) * 1000;
      lines := lines + [STREAM_INF + Dec(bandwidth)];
      lines := lines + [Uri(ordered[i])];
      StreamsExtend(ordered, i);
    }
    assert ordered[..|ordered|] == ordered;
    text := Unlines(lines);
  }

  datatype Variant = Variant(bandwidth: nat, uri: string)

  /** An independent reader: EXT-X-STREAM-INF lines, each followed by its URI line
      (section 4.3.4.2 of RFC 8216). */
  function ReadVariants(lines: seq<string>): Option<seq<Variant>> {
    if lines == [] then Some([])
    else if |lines| < 2 || !StartsWith(lines[0], STREAM_INF) || StartsWith(lines[1], "#") then None
    else
      var digits := lines[0][|STREAM_INF|..];
      if digits == "" || !AllDigits(digits) then None
      else match ReadVariants(lines[2..])
           case None => None
           case Some(rest) => Some([Variant(Undec(digits), lines[1])] + rest)
  }

  function ReadMaster(text: string): Option<seq<Variant>> {
    match Lines(text)
    case None => None
    case Some(lines) =>
      if |lines| < 2 || lines[0] != HEADER || lines[1] != VERSION then None else ReadVariants(lines[2..])
  }

  function Variants(ordered: seq<Rendition>): (vs: seq<Variant>)
    ensures |vs| == |ordered|
    ensures forall i :: 0 <= i < |ordered| ==> vs[i] == Variant(BandwidthOf(ordered[i]), Uri(ordered[i]))
  {
    seq(|ordered|, i requires 0 <= i < |ordered| => Variant(BandwidthOf(ordered[i]), Uri(ordered[i])))
  }

  lemma StreamLinesCons(r: Rendition, rest: seq<Rendition>)
    ensures StreamLines([r] + rest) == VariantLines(r) + StreamLines(rest)
  {
    FlattenedConcat(VariantLines, [r], rest);
    FlattenedOne(VariantLines, r);
  }

  lemma LabelOneLine(r: Rendition)
    ensures OneLine(Uri(r)) && OneLine(STREAM_INF + Dec(BandwidthOf(r)))
  {
    assert r == r[..|r| - 1] + "p";
    assert '\n' !in r[..|r| - 1];
    assert '\n' !in Dec(BandwidthOf(r));
  }

  lemma PairReads(r: Rendition, rest: seq<string>)
    ensures var lines := VariantLines(r) + rest;
            ReadVariants(lines) == match ReadVariants(rest)
                                   case None => None
                                   case Some(vs) => Some([Variant(BandwidthOf(r), Uri(r))] + vs)
  {
    var digits := Dec(BandwidthOf(r));
    var lines := VariantLines(r) + rest;
    UndecDec(BandwidthOf(r));
    assert lines[0][|STREAM_INF|..] == digits;
    assert lines[0][..|STREAM_INF|] == STREAM_INF;
    assert IsDigit(Uri(r)[0]) by { assert r[..|r| - 1][0] == r[0]; }
    assert lines[1][..1] != "#";
    assert lines[2..] == rest;
  }

  lemma {:induction false} StreamLinesRead(ordered: seq<Rendition>)
    ensures ReadVariants(StreamLines(ordered)) == Some(Variants(ordered))
  {
    if ordered != [] {
      var r, rest := ordered[0], ordered[1..];
      assert ordered == [r] + rest;
      StreamLinesCons(r, rest);
      StreamLinesRead(rest);
      PairReads(r, StreamLines(rest));
      VariantsCons(r, rest);
    }
  }

  lemma VariantsCons(r: Rendition, rest: seq<Rendition>)
    ensures Variants([r] + rest) == [Variant(BandwidthOf(r), Uri(r))] + Variants(rest)
  {
  }

  lemma {:induction false} StreamLinesOneLine(ordered: seq<Rendition>)
    ensures AllOneLine(StreamLines(ordered))
  {
    if ordered != [] {
      StreamLinesOneLine(ordered[..|ordered| - 1]);
      LabelOneLine(ordered[|ordered| - 1]);
    }
  }

  /** Reading the printed playlist back yields the numerically sorted ladder, pair by pair. */
  lemma MasterRoundTrip(renditions: seq<Rendition>)
    ensures ReadMaster(MasterText(renditions)) == Some(Variants(SortByRung(renditions)))
  {
    var ordered := SortByRung(renditions);
    var lines := [HEADER, VERSION] + StreamLines(ordered);
    StreamLinesRead(ordered);
    StreamLinesOneLine(ordered);
    assert AllOneLine(lines);
    LinesOfUnlines(lines);
    assert lines[2..] == StreamLines(ordered);
  }

  /** The text depends only on which renditions there are, not on the order a dict yields them in. */
  lemma MasterOrderIndependent(a: seq<Rendition>, b: seq<Rendition>)
    requires NoRepeats(a) && NoRepeats(b) && DistinctKeys(Rung, multiset(a))
    requires forall r :: r in a <==> r in b
    ensures MasterText(a) == MasterText(b)
  {
    SameSetSameMultiset(a, b);
    SortIsCanonical(Rung, a, b);
  }

  /** Different rendition sets never print the same playlist. */
  lemma MasterDetermines(a: seq<Rendition>, b: seq<Rendition>)
    requires MasterText(a) == MasterText(b)
    ensures multiset(a) == multiset(b)
  {
    MasterRoundTrip(a);
    MasterRoundTrip(b);
    SortBySorts(Rung, a);
    SortBySorts(Rung, b);
    var sa, sb := SortByRung(a), SortByRung(b);
    assert Variants(sa) == Variants(sb);
    forall i | 0 <= i < |sa|
      ensures sa[i] == sb[i]
    {
      assert Uri(sa[i]) == Variants(sa)[i].uri == Variants(sb)[i].uri == Uri(sb[i]);
      assert Uri(sa[i])[..|sa[i]|] == sa[i] && Uri(sb[i])[..|sb[i]|] == sb[i];
    }
    assert sa == sb;
  }

  lemma LadderSortsBack(ladder: seq<Rendition>, shuffled: seq<Rendition>)
    requires IsLadder(ladder) && multiset(shuffled) == multiset(ladder)
    ensures SortByRung(shuffled) == ladder
  {
    SortBySorts(Rung, shuffled);
    assert Ascending(Rung, ladder);
    assert DistinctKeys(Rung, multiset(ladder)) by {
      forall r: Rendition, s: Rendition | r in multiset(ladder) && s in multiset(ladder) && Rung(r) == Rung(s)
        ensures r == s
      {
        assert r in ladder && s in ladder;
      }
    }
    AscendingUnique(Rung, ladder, SortByRung(shuffled));
  }

  lemma StandardRungsRise(ladder: seq<Rendition>, i: nat, j: nat)
    requires IsLadder(ladder) && i < j < |ladder|
    requires Rung(ladder[i]) in STANDARD_RUNGS && Rung(ladder[j]) in STANDARD_RUNGS
    ensures BandwidthOf(ladder[i]) < BandwidthOf(ladder[j])
  {
    BitrateMonotone(Rung(ladder[i]), Rung(ladder[j]));
  }

  lemma FittingRungs(ladder: seq<Rendition>, short: int)
    requires IsLadder(ladder) && FitsSource(ladder, short)
    ensures |ladder| == 1 || forall i :: 0 <= i < |ladder| ==> Rung(ladder[i]) in STANDARD_RUNGS
  {
  }

  /** For a ladder the probe chose, BANDWIDTH rises strictly from variant to variant. */
  lemma LadderBandwidthRises(ladder: seq<Rendition>, short: int)
    requires IsLadder(ladder) && FitsSource(ladder, short)
    ensures forall i, j :: 0 <= i < j < |ladder| ==> Variants(ladder)[i].bandwidth < Variants(ladder)[j].bandwidth
  {
    FittingRungs(ladder, short);
    forall i, j | 0 <= i < j < |ladder|
      ensures BandwidthOf(ladder[i]) < BandwidthOf(ladder[j])
    {
      StandardRungsRise(ladder, i, j);
    }
  }

  /** In whatever order a ladder's labels are handed over, the playlist lists the ladder itself. */
  lemma LadderListed(ladder: seq<Rendition>, shuffled: seq<Rendition>)
    requires IsLadder(ladder) && multiset(shuffled) == multiset(ladder)
    ensures ReadMaster(MasterText(shuffled)) == Some(Variants(ladder))
  {
    LadderSortsBack(ladder, shuffled);
    MasterRoundTrip(shuffled);
  }

  /** The playlist line by line, each line spelled out. */
  lemma MasterLines(renditions: seq<Rendition>)
    ensures var ordered := SortByRung(renditions);
            && Lines(MasterText(renditions)) == Some(["#EXTM3U", "#EXT-X-VERSION:3"] + StreamLines(ordered))
            && |StreamLines(ordered)| == 2 * |ordered|
            && forall i :: 0 <= i < |ordered| ==>
                 && StreamLines(ordered)[2 * i] == "#EXT-X-STREAM-INF:BANDWIDTH=" + Dec(1000 * Bitrate(Rung(ordered[i])))
                 && StreamLines(ordered)[2 * i + 1] == ordered[i] + "/playlist.m3u8"
  {
    var ordered := SortByRung(renditions);
    var lines := [HEADER, VERSION] + StreamLines(ordered);
    StreamLinesOneLine(ordered);
    LinesOfUnlines(lines);
    StreamLinesAt(ordered);
  }

  lemma {:induction false} StreamLinesAt(ordered: seq<Rendition>)
    ensures |StreamLines(ordered)| == 2 * |ordered|
    ensures forall i :: 0 <= i < |ordered| ==> StreamLines(ordered)[2 * i] == VariantLines(ordered[i])[0] && StreamLines(ordered)[2 * i + 1] == VariantLines(ordered[i])[1]
  {
    if ordered != [] {
      var init := ordered[..|ordered| - 1];
      StreamLinesAt(init);
      assert StreamLines(ordered) == StreamLines(init) + VariantLines(ordered[|ordered| - 1]);
    }
  }

  /** The table's rates, and what lies outside it. */
  lemma BitrateTable(rung: nat)
    ensures Bitrate(240) == 400 && Bitrate(360) == 800 && Bitrate(480) == 1400 && Bitrate(720) == 2800 && Bitrate(1080) == 5000
    ensures rung <= 240 ==> Bitrate(rung) == 400
    ensures rung >= 1080 ==> Bitrate(rung) == 5000
  {
  }
}
