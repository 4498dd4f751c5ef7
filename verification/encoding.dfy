/** How often a rendition is encoded: when deliveries of one request do not overlap, its MP4 is promoted at
    most once, however many times the request is delivered, fails or is cut short. */
module Encoding {
  import opened Text
  import opened Tables
  import opened Storage
  import opened Pipeline

  /** A transcode that found no MP4 and has not yet made one. */
  predicate Encodes(pc: Pc) {
    (pc.HeadPlaylist? && !pc.mp4) || pc.ClaimRow? || pc.UploadMp4? || pc.CopyMp4?
  }

  ghost predicate OnePerRendition(workers: seq<Pc>) {
    forall i, k :: 0 <= i < k < |workers| && IsTranscoding(workers[i]) && IsTranscoding(workers[k])
                   ==> workers[i].rendition != workers[k].rendition
  }

  ghost predicate CopiesOk(w: World) {
    forall r :: w.mp4Copies[r] <= 1 && (w.mp4Copies[r] == 1 ==> Mp4(r) in w.store)
  }

  ghost predicate Unmade(w: World, workers: seq<Pc>) {
    forall i :: 0 <= i < |workers| && Encodes(workers[i]) ==> Mp4(workers[i].rendition) !in w.store
  }

  ghost predicate EncodedOnce(m: Machine) {
    OnePerRendition(m.workers) && CopiesOk(m.w) && Unmade(m.w, m.workers)
  }

  /** What one step does to MP4s: only a copy makes one, and nothing removes one. */
  lemma StepMp4s(j: Job, w: World, pc: Pc)
    ensures var (w', pc') := Step(j, w, pc); var made := pc.CopyMp4? && Mp4Part(pc.rendition) in w.store;
            && (forall r :: Mp4(r) in w'.store <==> Mp4(r) in w.store || (made && r == pc.rendition))
            && w'.mp4Copies == (if made then w.mp4Copies + multiset{pc.rendition} else w.mp4Copies)
  {
    if pc.Probing? {
      SendsKeep(j, w, |j.ladder| + 1);
    }
  }

  lemma {:induction false} SendsKeep(j: Job, w: World, k: nat)
    requires k <= |j.ladder| + 1
    ensures SendFirst(j, w, k).store == w.store && SendFirst(j, w, k).mp4Copies == w.mp4Copies
  {
    if k > 0 {
      SendsKeep(j, w, k - 1);
    }
  }

  /** A step stays with its rendition, and goes on towards a copy only while there is no MP4. */
  lemma StepStays(j: Job, w: World, pc: Pc)
    ensures var (w', pc') := Step(j, w, pc);
            && (IsTranscoding(pc') ==> IsTranscoding(pc) && pc'.rendition == pc.rendition)
            && (Encodes(pc') ==> (pc.HeadMp4? && Mp4(pc.rendition) !in w.store) || (Encodes(pc) && !pc.CopyMp4?))
  {
  }

  lemma WorkerStaysAlone(workers: seq<Pc>, i: nat, pc: Pc)
    requires OnePerRendition(workers) && i < |workers|
    requires IsTranscoding(pc) ==> IsTranscoding(workers[i]) && pc.rendition == workers[i].rendition
    ensures OnePerRendition(workers[i := pc])
  {
  }

  lemma AdvanceKeeps(j: Job, m: Machine, i: nat)
    requires EncodedOnce(m) && i < |m.workers|
    ensures var (w, pc) := Step(j, m.w, m.workers[i]); EncodedOnce(Moved(m, i, w, pc))
  {
    var pc := m.workers[i];
    var (w', pc') := Step(j, m.w, pc);
    StepMp4s(j, m.w, pc);
    StepStays(j, m.w, pc);
    WorkerStaysAlone(m.workers, i, pc');
    CopiesStay(j, m, i, w');
    UnmadeStays(j, m, i, w', pc');
  }

  lemma CopiesStay(j: Job, m: Machine, i: nat, w': World)
    requires EncodedOnce(m) && i < |m.workers|
    requires var pc := m.workers[i]; var made := pc.CopyMp4? && Mp4Part(pc.rendition) in m.w.store;
             && (forall r :: Mp4(r) in w'.store <==> Mp4(r) in m.w.store || (made && r == pc.rendition))
             && w'.mp4Copies == (if made then m.w.mp4Copies + multiset{pc.rendition} else m.w.mp4Copies)
    ensures CopiesOk(w')
  {
  }

  lemma UnmadeStays(j: Job, m: Machine, i: nat, w': World, pc': Pc)
    requires EncodedOnce(m) && i < |m.workers|
    requires var pc := m.workers[i];
             && (forall r :: Mp4(r) in w'.store <==> Mp4(r) in m.w.store || (pc.CopyMp4? && Mp4Part(pc.rendition) in m.w.store && r == pc.rendition))
             && (IsTranscoding(pc') ==> IsTranscoding(pc) && pc'.rendition == pc.rendition)
             && (Encodes(pc') ==> (pc.HeadMp4? && Mp4(pc.rendition) !in m.w.store) || (Encodes(pc) && !pc.CopyMp4?))
    ensures Unmade(w', m.workers[i := pc'])
  {
    var workers := m.workers[i := pc'];
    forall k | 0 <= k < |workers| && Encodes(workers[k])
      ensures Mp4(workers[k].rendition) !in w'.store
    {
      if k < i {
        assert IsTranscoding(m.workers[i]) ==> m.workers[k].rendition != m.workers[i].rendition;
      } else if k > i {
        assert IsTranscoding(m.workers[i]) ==> m.workers[i].rendition != m.workers[k].rendition;
      }
    }
  }

  lemma StopKeeps(m: Machine, i: nat, pc: Pc, orphaned: bool)
    requires EncodedOnce(m) && i < |m.workers| && !IsTranscoding(pc) && !Encodes(pc)
    ensures EncodedOnce(Moved(m, i, m.w, pc).(orphaned := orphaned))
  {
    WorkerStaysAlone(m.workers, i, pc);
  }

  lemma StartKeeps(j: Job, m: Machine, r: string)
    requires EncodedOnce(m) && !Busy(m.workers, r)
    ensures EncodedOnce(m.(workers := m.workers + [HeadMp4(r)]))
  {
  }

  lemma OtherStartKeeps(m: Machine, pc: Pc, w: World)
    requires EncodedOnce(m) && !IsTranscoding(pc) && w.store == m.w.store && w.mp4Copies == m.w.mp4Copies
    ensures EncodedOnce(m.(workers := m.workers + [pc], w := w)) && EncodedOnce(m.(w := w))
  {
  }

  lemma ActKeeps(j: Job, m: Machine, a: Action)
    requires j.oneAtATime && EncodedOnce(m)
    ensures EncodedOnce(Acted(j, m, a))
  {
    match a
    case Advance(i) =>
      if i < |m.workers| {
        AdvanceKeeps(j, m, i);
      }
    case Raise(i) =>
      if i < |m.workers| {
        StopKeeps(m, i, Raised(m.workers[i]), m.orphaned || (m.workers[i].ReleaseVideo? && Master !in m.w.store));
      }
    case Kill(i) =>
      if i < |m.workers| {
        StopKeeps(m, i, Ended(false), m.orphaned || (Holding(m.workers[i]) && Master !in m.w.store));
      }
    case FlushShort(i) =>
      if i < |m.workers| {
        StopKeeps(m, i, Ended(true), m.orphaned);
      }
    case StartTranscode(r) =>
      if !Busy(m.workers, r) {
        StartKeeps(j, m, r);
      }
    case _ => EnvironmentKeeps(j, m, a);
  }

  lemma EnvironmentKeeps(j: Job, m: Machine, a: Action)
    requires EncodedOnce(m) && (a.StartProbe? || a.StartPackage? || a.Deliver? || a.Elsewhere? || a.Tick?)
    ensures EncodedOnce(Acted(j, m, a))
  {
    match a
    case StartProbe => OtherStartKeeps(m, Probing(0), m.w);
    case StartPackage(fact, again) =>
      OtherStartKeeps(m, RecordFact(fact), if again then m.w else m.w.(pending := m.w.pending - multiset{fact}));
    case Deliver(message) => OtherStartKeeps(m, Ended(true), Send(m.w, message));
    case Elsewhere(op) => OtherStartKeeps(m, Ended(true), Write(m.w, op));
    case Tick(elapsed) => OtherStartKeeps(m, Ended(true), m.w.(now := m.w.now + elapsed));
  }

  /** Over sequential deliveries the MP4 of a rendition is promoted at most once, and once promoted it is
      there: every later delivery skips the encode. */
  lemma {:induction false} PromotedAtMostOnce(j: Job, t: Table, now: int, actions: seq<Action>)
    requires j.oneAtATime
    ensures EncodedOnce(Run(j, Begin(t, now), actions))
    ensures forall r :: Run(j, Begin(t, now), actions).w.mp4Copies[r] <= 1
  {
    if actions != [] {
      PromotedAtMostOnce(j, t, now, actions[..|actions| - 1]);
      ActKeeps(j, Run(j, Begin(t, now), actions[..|actions| - 1]), actions[|actions| - 1]);
    }
  }
}
