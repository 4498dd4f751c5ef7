/** Choosing the renditions a source deserves (backend/libs/pipeline/ladder.py). */
module Ladder {
  import opened Text

  const STANDARD_RUNGS: seq<nat> := [360, 480, 720, 1080]
  const MIN_SUPPORTED_SHORT_SIDE := 100

  /** The shape the event contract puts on a rendition label: three or four digits and a `p`. */
  predicate IsRendition(s: string) {
    4 <= |s| <= 5 && s[|s| - 1] == 'p' && AllDigits(s[..|s| - 1])
  }

  type Rendition = s: string | IsRendition(s) witness "360p"

  /** `r.rstrip("p")`: every trailing `p` goes. */
  function RStripP(s: string): string {
    if s != "" && s[|s| - 1] == 'p' then RStripP(s[..|s| - 1]) else s
  }

  lemma StripsOneP(r: Rendition)
    ensures RStripP(r) == r[..|r| - 1]
  {
    assert IsDigit(r[|r| - 2]) by { assert r[..|r| - 1][|r| - 2] == r[|r| - 2]; }
    assert r[..|r| - 1][|r| - 2] != 'p';
  }

  /** '720p' -> 720. */
  function Rung(r: Rendition): nat {
    StripsOneP(r);
    Undec(RStripP(r))
  }

  function Label(rung: nat): string {
    Dec(rung) + "p"
  }

  lemma LabelIsRendition(rung: nat)
    requires 100 <= rung < 10000
    ensures IsRendition(Label(rung)) && Rung(Label(rung)) == rung
  {
    var s := Label(rung);
    assert s[..|s| - 1] == Dec(rung);
    if rung < 1000 {
      assert |Dec(rung / 10)| == 2 by { assert |Dec(rung / 100)| == 1; }
    } else {
      assert |Dec(rung / 10)| == 3 by {
        assert |Dec(rung / 100)| == 2 by { assert |Dec(rung / 1000)| == 1; }
      }
    }
    StripsOneP(s);
    UndecDec(rung);
  }

  function DisplayDimensions(width: int, height: int, rotation: int): (int, int) {
    if rotation % 180 == 90 then (height, width) else (width, height)
  }

  function ShortSide(width: int, height: int, rotation: int): int {
    var (w, h) := DisplayDimensions(width, height, rotation);
    if w < h then w else h
  }

  function Filter(rungs: seq<nat>, limit: int): seq<nat> {
    if rungs == [] then []
    else (if rungs[0] <= limit then [rungs[0]] else []) + Filter(rungs[1..], limit)
  }

  function Labels(rungs: seq<nat>): (ls: seq<string>)
    ensures |ls| == |rungs| && forall i :: 0 <= i < |ls| ==> ls[i] == Label(rungs[i])
  {
    if rungs == [] then [] else [Label(rungs[0])] + Labels(rungs[1..])
  }

  function ChosenRungs(short: int): seq<nat>
    requires MIN_SUPPORTED_SHORT_SIDE <= short
  {
    var rungs := Filter(STANDARD_RUNGS, short);
    if rungs == [] then [short] else rungs
  }

  /** None stands for the TerminalError a too-small source raises. */
  function SelectLadder(width: int, height: int, rotation: int): Option<seq<string>> {
    var short := ShortSide(width, height, rotation);
    if short < MIN_SUPPORTED_SHORT_SIDE then None else Some(Labels(ChosenRungs(short)))
  }

  /** What the fan-out relies on: valid labels, in strictly rising rung order. */
  ghost predicate IsLadder(ladder: seq<string>) {
    && 1 <= |ladder| <= 4
    && (forall i :: 0 <= i < |ladder| ==> IsRendition(ladder[i]))
    && (forall i, j :: 0 <= i < j < |ladder| ==> Rung(ladder[i]) < Rung(ladder[j]))
  }

  lemma FilteredRungs(short: int)
    requires MIN_SUPPORTED_SHORT_SIDE <= short
    ensures ChosenRungs(short) ==
            if short < 360 then [short] else if short < 480 then [360]
            else if short < 720 then [360, 480] else if short < 1080 then [360, 480, 720]
            else [360, 480, 720, 1080]
  {
    assert STANDARD_RUNGS[1..] == [480, 720, 1080];
    assert STANDARD_RUNGS[1..][1..] == [720, 1080];
    assert STANDARD_RUNGS[1..][1..][1..] == [1080];
    assert STANDARD_RUNGS[1..][1..][1..][1..] == [];
    assert Filter([], short) == [];
    assert Filter([1080], short) == if 1080 <= short then [1080] else [];
    assert Filter([720, 1080], short) == (if 720 <= short then [720] else []) + Filter([1080], short);
    assert Filter([480, 720, 1080], short) == (if 480 <= short then [480] else []) + Filter([720, 1080], short);
  }

  ghost predicate FitsSource(ladder: seq<string>, short: int)
    requires IsLadder(ladder)
  {
    && (forall i :: 0 <= i < |ladder| ==> Rung(ladder[i]) <= short)
    && (forall rung :: rung in STANDARD_RUNGS ==> (Label(rung) in ladder <==> rung <= short))
    && (if 0 <= short < 360 then ladder == [Label(short)]
        else forall i :: 0 <= i < |ladder| ==> Rung(ladder[i]) in STANDARD_RUNGS)
  }

  /** A source is refused exactly when its short side is under the minimum. Otherwise the ladder is
      valid, never upscales, holds every standard rung that fits and nothing else, and falls back to
      the source's own size exactly when no standard rung fits. */
  lemma LadderFitsSource(width: int, height: int, rotation: int)
    ensures var short := ShortSide(width, height, rotation);
            match SelectLadder(width, height, rotation)
            case None => short < MIN_SUPPORTED_SHORT_SIDE
            case Some(ladder) =>
              MIN_SUPPORTED_SHORT_SIDE <= short && IsLadder(ladder) && FitsSource(ladder, short)
  {
    var short := ShortSide(width, height, rotation);
    if short >= MIN_SUPPORTED_SHORT_SIDE {
      FilteredRungs(short);
      var rungs := ChosenRungs(short);
      RungsLabelled(rungs);
      forall rung | rung in STANDARD_RUNGS
        ensures Label(rung) in Labels(rungs) <==> rung <= short
      {
        LabelIn(rungs, rung);
      }
    }
  }

  /** The same in the source's own numbers, whatever its rotation. It is refused exactly when a side is under a
      hundred pixels. Otherwise no rung exceeds either side; 360, 480, 720 and 1080 are listed exactly when
      they exceed neither; and when none of them fits, the smaller side is the one rung. */
  lemma LadderNeverUpscales(width: int, height: int, rotation: int)
    ensures SelectLadder(width, height, rotation).None? <==> width < 100 || height < 100
    ensures match SelectLadder(width, height, rotation)
            case None => true
            case Some(ladder) =>
              && IsLadder(ladder)
              && (forall i :: 0 <= i < |ladder| ==> Rung(ladder[i]) <= width && Rung(ladder[i]) <= height)
              && (forall rung :: rung in {360, 480, 720, 1080} ==> (Label(rung) in ladder <==> rung <= width && rung <= height))
              && (if 360 <= width && 360 <= height
                  then forall i :: 0 <= i < |ladder| ==> Rung(ladder[i]) in {360, 480, 720, 1080}
                  else |ladder| == 1 && Rung(ladder[0]) == if width < height then width else height)
  {
    LadderFitsSource(width, height, rotation);
    var small := if width < height then width else height;
    ShorterSide(width, height, rotation);
    if 100 <= small < 360 {
      FilteredRungs(small);
      RungsLabelled([small]);
    }
    assert forall rung :: rung in {360, 480, 720, 1080} ==> rung in STANDARD_RUNGS;
    assert forall rung :: rung in STANDARD_RUNGS ==> rung in {360, 480, 720, 1080};
  }

  lemma ShorterSide(width: int, height: int, rotation: int)
    ensures ShortSide(width, height, rotation) == if width < height then width else height
  {
  }

  lemma LabelIn(rungs: seq<nat>, rung: nat)
    ensures Label(rung) in Labels(rungs) <==> rung in rungs
  {
    if Label(rung) in Labels(rungs) {
      var i :| 0 <= i < |rungs| && Labels(rungs)[i] == Label(rung);
      assert Label(rung)[..|Label(rung)| - 1] == Dec(rung);
      assert Label(rungs[i])[..|Label(rungs[i])| - 1] == Dec(rungs[i]);
      DecInjective(rungs[i], rung);
    }
    if rung in rungs {
      var i :| 0 <= i < |rungs| && rungs[i] == rung;
      assert Labels(rungs)[i] == Label(rung);
    }
  }

  lemma RungsLabelled(rungs: seq<nat>)
    requires 1 <= |rungs| <= 4 && forall i :: 0 <= i < |rungs| ==> 100 <= rungs[i] < 10000
    requires forall i, j :: 0 <= i < j < |rungs| ==> rungs[i] < rungs[j]
    ensures IsLadder(Labels(rungs))
    ensures forall i :: 0 <= i < |rungs| ==> Rung(Labels(rungs)[i]) == rungs[i]
  {
    forall i | 0 <= i < |rungs|
      ensures IsRendition(Labels(rungs)[i]) && Rung(Labels(rungs)[i]) == rungs[i]
    {
      LabelIsRendition(rungs[i]);
    }
  }
}
