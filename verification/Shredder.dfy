/** Multi-pass overwriting with cancellation: backend/utils/secure_delete.py,
    lines 147-230. */
module Shredder {
  import opened Wrappers

  const CHUNK_SIZE: nat := 8 * 1024 * 1024

  newtype Byte = b: int | 0 <= b < 256

  /** `os.urandom`, the cancel event at its n-th poll, and the outcome of each
      system call; a failing write leaves its chunk untouched. `stillThere` is the answer of
      the verification, if it does not raise. */
  datatype Env = Env(
    random: (nat, nat) -> Byte, cancel: nat -> bool,
    stats: bool, renames: bool, opens: nat -> bool, writes: (nat, nat) -> bool, flushes: nat -> bool,
    removes: bool, stillThere: Option<bool>)

  datatype Outcome = Destroyed | CancelledBefore | CancelledIn(pass: nat) | FailedIn(pass: nat) | Failed

  datatype Write = Write(pass: nat, offset: nat, length: nat)

  datatype Progress = Progress(pass: nat, percent: nat)

  /** The contents after `k` full passes and the first `w` bytes of the next. */
  function Contents(original: seq<Byte>, random: (nat, nat) -> Byte, k: nat, w: nat): seq<Byte> {
    seq(|original|, i requires 0 <= i < |original| =>
      if i < w then random(k + 1, i) else if k == 0 then original[i] else random(k, i))
  }

  /** How often the writes of a pass hit byte `i`. */
  function Hits(writes: seq<Write>, pass: nat, i: nat): nat {
    if writes == [] then 0
    else
      var last := writes[|writes| - 1];
      Hits(writes[..|writes| - 1], pass, i) +
      if last.pass == pass && last.offset <= i < last.offset + last.length then 1 else 0
  }

  /** `k` full passes and a prefix of length `w`, each byte written once a pass. */
  ghost predicate WroteOnce(writes: seq<Write>, size: nat, k: nat, w: nat) {
    forall p: nat, i: nat :: i < size ==>
      Hits(writes, p, i) == if 1 <= p <= k || (p == k + 1 && i < w) then 1 else 0
  }

  /** How many chunks the first `w` bytes of a pass take. */
  function Chunks(w: nat): nat { (w + CHUNK_SIZE - 1) / CHUNK_SIZE }

  /** How often the cancel event is polled up to the end of pass `k`: once before
      the passes, once a pass and once a chunk. */
  function PollsUpTo(k: nat, size: nat): nat {
    if k == 0 then 1 else PollsUpTo(k - 1, size) + 1 + Chunks(size)
  }

  /** The chunks cover the bytes, and one less would not. */
  lemma ChunksCover(w: nat)
    ensures w <= Chunks(w) * CHUNK_SIZE < w + CHUNK_SIZE
  {
  }

  /** One poll, and for each pass one more and one a chunk. */
  lemma {:induction false} PollsCounted(k: nat, size: nat)
    ensures PollsUpTo(k, size) == 1 + k * (1 + Chunks(size))
  {
    if k > 0 {
      PollsCounted(k - 1, size);
      assert k * (1 + Chunks(size)) == (k - 1) * (1 + Chunks(size)) + (1 + Chunks(size));
    }
  }

  /** A chunk ends on a multiple of the chunk size or at the end of the file. */
  predicate ChunkEnd(w: nat, size: nat) { w == size || w % CHUNK_SIZE == 0 }

  lemma NextChunkEnd(w: nat, length: nat, size: nat)
    requires w < size && ChunkEnd(w, size)
    requires length == if size - w < CHUNK_SIZE then size - w else CHUNK_SIZE
    ensures ChunkEnd(w + length, size) && Chunks(w + length) == Chunks(w) + 1
  {
  }

  /** The first `n` polls do not find the event set. */
  predicate Quiet(env: Env, n: nat) {
    forall i :: 0 <= i < n ==> !env.cancel(i)
  }

  /** The system call that ends a pass after its first `w` bytes. */
  predicate Refused(env: Env, pass: nat, w: nat, size: nat) {
    || (w == 0 && !env.opens(pass))
    || (w < size && w % CHUNK_SIZE == 0 && !env.writes(pass, w))
    || (w == size && !env.flushes(pass))
  }

  /** No chunk of the first `w` bytes is refused. */
  predicate WritesAccepted(env: Env, pass: nat, w: nat) {
    forall x: nat :: x < w && x % CHUNK_SIZE == 0 ==> env.writes(pass, x)
  }

  predicate PassAccepted(env: Env, pass: nat, size: nat) {
    env.opens(pass) && env.flushes(pass) && WritesAccepted(env, pass, size)
  }

  predicate PassesAccepted(env: Env, passes: nat, size: nat) {
    forall p: nat :: 1 <= p <= passes ==> PassAccepted(env, p, size)
  }

  /** Every system call of the run would be accepted, and the cancel event stays
      unset for as long as it is polled. */
  predicate Undisturbed(env: Env, passes: nat, rename: bool, size: nat) {
    && env.stats && (rename ==> env.renames) && env.removes
    && Quiet(env, PollsUpTo(passes, size)) && PassesAccepted(env, passes, size)
  }

  lemma {:induction false} PollsGrow(k: nat, passes: nat, size: nat)
    requires k <= passes
    ensures PollsUpTo(k, size) <= PollsUpTo(passes, size)
    decreases passes
  {
    if k < passes {
      PollsGrow(k, passes - 1, size);
    }
  }

  lemma RefusalDisturbs(env: Env, passes: nat, rename: bool, size: nat, pass: nat, w: nat)
    requires 1 <= pass <= passes && Refused(env, pass, w, size)
    ensures !Undisturbed(env, passes, rename, size)
  {
    assert PassesAccepted(env, passes, size) ==> PassAccepted(env, pass, size);
  }

  lemma NextChunkAccepted(env: Env, pass: nat, w: nat, after: nat, size: nat)
    requires WritesAccepted(env, pass, w) && ChunkEnd(w, size) && w < size && env.writes(pass, w)
    requires after <= w + CHUNK_SIZE
    ensures WritesAccepted(env, pass, after)
  {
  }

  /** An empty file never gets past the first report. */
  function Percent(written: nat, size: nat): nat {
    if size == 0 then 0 else written * 100 / size
  }

  lemma PercentGrows(v: nat, w: nat, size: nat)
    requires v <= w <= size
    ensures Percent(v, size) <= Percent(w, size) <= 100
    ensures 0 < size ==> Percent(size, size) == 100
  {
    if 0 < size {
      DivisionGrows(v * 100, w * 100, size);
      DivisionGrows(w * 100, size * 100, size);
      assert size * 100 == 100 * size;
      DivisionOfMultiple(100, size);
    }
  }

  /** The percentage is the share written, rounded down. */
  lemma PercentIsShare(written: nat, size: nat)
    requires 0 < size
    ensures Percent(written, size) * size <= written * 100 < (Percent(written, size) + 1) * size
  {
    var q := written * 100 / size;
    assert written * 100 == size * q + written * 100 % size;
  }

  lemma MulStep(d: nat, u: int, v: int)
    requires u < v
    ensures d * u + d <= d * v
  {
    assert d * v == d * u + d * (v - u);
    assert d * (v - u) == d + d * (v - u - 1);
  }

  lemma DivisionGrows(a: nat, b: nat, d: nat)
    requires 0 < d && a <= b
    ensures a / d <= b / d
  {
    var x, y := a / d, b / d;
    assert a == d * x + a % d && b == d * y + b % d;
    if y < x {
      MulStep(d, y, x);
    }
  }

  lemma DivisionOfMultiple(q: nat, d: nat)
    requires 0 < d
    ensures q * d / d == q
  {
    var x := q * d / d;
    assert q * d == d * x + (q * d) % d;
    if x < q {
      MulStep(d, x, q);
    } else if q < x {
      MulStep(d, q, x);
    }
  }

  /** Within a pass progress never falls, and stays in 0..100. */
  ghost predicate ProgressGrows(progress: seq<Progress>) {
    && (forall i :: 0 <= i < |progress| ==> progress[i].percent <= 100)
    && forall i, j :: 0 <= i < j < |progress| && progress[i].pass == progress[j].pass ==>
         progress[i].percent <= progress[j].percent
  }

  lemma HitsOfOneMore(writes: seq<Write>, w: Write, pass: nat, i: nat)
    ensures Hits(writes + [w], pass, i) ==
            Hits(writes, pass, i) + if w.pass == pass && w.offset <= i < w.offset + w.length then 1 else 0
  {
  }

  lemma ChunkExtendsPrefix(writes: seq<Write>, size: nat, k: nat, w: nat, length: nat)
    requires WroteOnce(writes, size, k, w) && w + length <= size
    ensures WroteOnce(writes + [Write(k + 1, w, length)], size, k, w + length)
  {
    var next := writes + [Write(k + 1, w, length)];
    forall p: nat, i: nat | i < size
      ensures Hits(next, p, i) == if 1 <= p <= k || (p == k + 1 && i < w + length) then 1 else 0
    {
      HitsOfOneMore(writes, Write(k + 1, w, length), p, i);
    }
  }

  lemma ContentsAfterChunk(
    original: seq<Byte>, random: (nat, nat) -> Byte, k: nat, w: nat, length: nat,
    before: seq<Byte>, after: seq<Byte>)
    requires |after| == |original| && w + length <= |original|
    requires before == Contents(original, random, k, w)
    requires forall i :: 0 <= i < |after| ==>
               after[i] == if w <= i < w + length then random(k + 1, i) else before[i]
    ensures after == Contents(original, random, k, w + length)
  {
  }

  predicate Extends(before: seq<Progress>, after: seq<Progress>) {
    forall x :: x in before ==> x in after
  }

  lemma ProgressStep(progress: seq<Progress>, pass: nat, percent: nat)
    requires ProgressGrows(progress) && percent <= 100
    requires forall i :: 0 <= i < |progress| && progress[i].pass == pass ==> progress[i].percent <= percent
    ensures ProgressGrows(progress + [Progress(pass, percent)])
  {
  }

  datatype PassEnd = Finished | Interrupted | Broken

  class FileShredder {
    const env: Env
    const data: array<Byte>
    var present: bool
    var polls: nat
    var writes: seq<Write>
    var progress: seq<Progress>

    constructor (env: Env, data: array<Byte>)
      ensures this.env == env && this.data == data && present && polls == 0 && writes == [] && progress == []
    {
      this.env, this.data := env, data;
      present, polls, writes, progress := true, 0, [], [];
    }

    method Cancelled() returns (c: bool)
      modifies this`polls
      ensures c == env.cancel(old(polls)) && polls == old(polls) + 1
    {
      c := env.cancel(polls);
      polls := polls + 1;
    }

    method WriteChunk(pass: nat, offset: nat, length: nat)
      requires offset + length <= data.Length
      modifies this`writes, data
      ensures writes == old(writes) + [Write(pass, offset, length)]
      ensures forall i :: 0 <= i < data.Length ==>
                data[i] == if offset <= i < offset + length then env.random(pass, i) else old(data[i])
    {
      forall i | offset <= i < offset + length {
        data[i] := env.random(pass, i);
      }
      writes := writes + [Write(pass, offset, length)];
    }

    /** What the chunk loop keeps. */
    ghost predicate InPass(original: seq<Byte>, k: nat, written: nat)
      reads this, data
    {
      && written <= data.Length
      && data[..] == Contents(original, env.random, k, written)
      && WroteOnce(writes, data.Length, k, written)
    }

    ghost predicate Shown(pass: nat, percent: nat)
      reads this
    {
      && ProgressGrows(progress) && progress != []
      && (forall i :: 0 <= i < |progress| ==> progress[i].pass <= pass)
      && (forall i :: 0 <= i < |progress| && progress[i].pass == pass ==> progress[i].percent <= percent)
      && progress[|progress| - 1] == Progress(pass, percent)
    }

    method ShowProgress(pass: nat, percent: nat)
      requires percent <= 100 && ProgressGrows(progress)
      requires forall i :: 0 <= i < |progress| ==> progress[i].pass <= pass
      requires forall i :: 0 <= i < |progress| && progress[i].pass == pass ==> progress[i].percent <= percent
      modifies this`progress
      ensures Shown(pass, percent) && Extends(old(progress), progress)
    {
      ProgressStep(progress, pass, percent);
      progress := progress + [Progress(pass, percent)];
    }

    /** One round of the chunk loop. */
    method NextChunk(ghost original: seq<Byte>, k: nat, written: nat) returns (after: nat)
      requires |original| == data.Length && written < data.Length && InPass(original, k, written)
      requires Shown(k + 1, Percent(written, data.Length))
      modifies this`writes, this`progress, data
      requires ChunkEnd(written, data.Length)
      requires WritesAccepted(env, k + 1, written) && env.writes(k + 1, written)
      ensures WritesAccepted(env, k + 1, after)
      ensures written < after <= data.Length && InPass(original, k, after)
      ensures ChunkEnd(after, data.Length) && Chunks(after) == Chunks(written) + 1
      ensures Shown(k + 1, Percent(after, data.Length)) && Extends(old(progress), progress)
    {
      var length := if data.Length - written < CHUNK_SIZE then data.Length - written else CHUNK_SIZE;
      ghost var before := data[..];
      NextChunkEnd(written, length, data.Length);
      NextChunkAccepted(env, k + 1, written, written + length, data.Length);
      ChunkExtendsPrefix(writes, data.Length, k, written, length);
      WriteChunk(k + 1, written, length);
      after := written + length;
      ContentsAfterChunk(original, env.random, k, written, length, before, data[..]);
      PercentGrows(written, after, data.Length);
      ShowProgress(k + 1, Percent(after, data.Length));
    }

    /** The chunk loop of pass `k + 1`. */
    method OverwriteChunks(ghost original: seq<Byte>, k: nat) returns (written: nat, end: PassEnd)
      requires |original| == data.Length && InPass(original, k, 0) && Shown(k + 1, 0)
      requires polls == PollsUpTo(k, data.Length) + 1 && Quiet(env, polls)
      modifies this`polls, this`writes, this`progress, data
      ensures InPass(original, k, written) && Shown(k + 1, Percent(written, data.Length))
      ensures Extends(old(progress), progress) && ChunkEnd(written, data.Length)
      ensures polls == PollsUpTo(k, data.Length) + 1 + Chunks(written) + if end == Finished then 0 else 1
      ensures match end
              case Finished => written == data.Length && Quiet(env, polls) && WritesAccepted(env, k + 1, written)
              case Interrupted => written < data.Length && env.cancel(polls - 1) && Quiet(env, polls - 1)
              case Broken =>
                written < data.Length && Refused(env, k + 1, written, data.Length) && Quiet(env, polls)
    {
      written := 0;
      while written < data.Length
        invariant InPass(original, k, written) && Shown(k + 1, Percent(written, data.Length))
        invariant Extends(old(progress), progress) && ChunkEnd(written, data.Length)
        invariant WritesAccepted(env, k + 1, written)
        invariant polls == PollsUpTo(k, data.Length) + 1 + Chunks(written) && Quiet(env, polls)
      {
        var c := Cancelled();
        if c {
          return written, Interrupted;
        }
        if !env.writes(k + 1, written) {
          return written, Broken;
        }
        written := NextChunk(original, k, written);
      }
      end := Finished;
    }

    /** The first poll that found the event set was the last one, before pass
        `done + 1` or before the chunk at `prefix`. */
    ghost predicate CancelledAt(done: nat, prefix: nat)
      reads this
    {
      && polls > 0 && env.cancel(polls - 1) && Quiet(env, polls - 1)
      && (|| (prefix == 0 && polls == PollsUpTo(done, data.Length) + 1)
          || (prefix < data.Length && ChunkEnd(prefix, data.Length) &&
              polls == PollsUpTo(done, data.Length) + 1 + Chunks(prefix) + 1))
    }

    lemma CancellationDisturbs(done: nat, prefix: nat, passes: nat, rename: bool)
      ensures CancelledAt(done, prefix) && done < passes ==> !Undisturbed(env, passes, rename, data.Length)
    {
      if done < passes {
        PollsGrow(done + 1, passes, data.Length);
      }
    }

    /** One overwrite pass over a file already overwritten `k` times. */
    method OverwritePass(ghost original: seq<Byte>, k: nat) returns (written: nat, end: PassEnd)
      requires |original| == data.Length && InPass(original, k, 0)
      requires ProgressGrows(progress) && forall i :: 0 <= i < |progress| ==> progress[i].pass <= k
      requires polls == PollsUpTo(k, data.Length) + 1 && Quiet(env, polls)
      modifies this`polls, this`writes, this`progress, data
      ensures InPass(original, k, written) && Extends(old(progress), progress)
      ensures ProgressGrows(progress) && forall i :: 0 <= i < |progress| ==> progress[i].pass <= k + 1
      ensures match end
              case Finished =>
                && written == data.Length && Quiet(env, polls) && polls == PollsUpTo(k + 1, data.Length)
                && PassAccepted(env, k + 1, data.Length)
                && progress != [] && progress[|progress| - 1] == Progress(k + 1, if data.Length == 0 then 0 else 100)
              case Interrupted => CancelledAt(k, written)
              case Broken => Refused(env, k + 1, written, data.Length) && Quiet(env, polls)
    {
      ShowProgress(k + 1, 0);
      if !env.opens(k + 1) {
        return 0, Broken;
      }
      PercentGrows(0, data.Length, data.Length);
      written, end := OverwriteChunks(original, k);
      if end == Finished && !env.flushes(k + 1) {
        end := Broken;
      }
    }

    ghost predicate FullPassesShown(done: nat)
      reads this
    {
      0 < data.Length ==> forall p :: 1 <= p <= done ==> Progress(p, 100) in progress
    }

    /** The pass loop. */
    method OverwriteAll(ghost original: seq<Byte>, passes: int) returns (done: nat, prefix: nat, end: PassEnd)
      requires |original| == data.Length && InPass(original, 0, 0) && progress == []
      requires polls == PollsUpTo(0, data.Length) && Quiet(env, polls)
      modifies this`polls, this`writes, this`progress, data
      ensures InPass(original, done, prefix) && ProgressGrows(progress) && FullPassesShown(done)
      ensures match end
              case Finished =>
                && done == (if passes < 0 then 0 else passes) && prefix == 0
                && polls == PollsUpTo(done, data.Length) && Quiet(env, polls)
                && PassesAccepted(env, done, data.Length)
              case Interrupted => done < passes && CancelledAt(done, prefix)
              case Broken => done < passes && Refused(env, done + 1, prefix, data.Length) && Quiet(env, polls)
    {
      done := 0;
      while done < passes
        invariant done == 0 || done <= passes
        invariant InPass(original, done, 0) && FullPassesShown(done)
        invariant ProgressGrows(progress) && forall i :: 0 <= i < |progress| ==> progress[i].pass <= done
        invariant polls == PollsUpTo(done, data.Length) && Quiet(env, polls)
        invariant PassesAccepted(env, done, data.Length)
      {
        var c := Cancelled();
        if c {
          return done, 0, Interrupted;
        }
        prefix, end := OverwritePass(original, done);
        if end != Finished {
          return;
        }
        WholePass(original, env.random, done);
        WholePassWrites(writes, data.Length, done);
        done := done + 1;
      }
      prefix, end := 0, Finished;
    }

    /** `shred_file`. The file of size zero is handled like any other: its passes
        open it and write nothing. */
    method ShredFile(passes: int, rename: bool, verify: bool)
      returns (ok: bool, outcome: Outcome, verified: Option<bool>, done: nat, prefix: nat)
      requires present && polls == 0 && writes == [] && progress == []
      modifies this, data
      // the bytes and writes: `done` full passes and a prefix of the next one
      ensures InPass(old(data[..]), done, prefix) && ProgressGrows(progress) && FullPassesShown(done)
      // the file is removed exactly when nothing disturbs the run, after all passes
      ensures !present <==> Undisturbed(env, if passes < 0 then 0 else passes, rename, data.Length)
      ensures !present ==> done == (if passes < 0 then 0 else passes) && prefix == 0
      ensures !present ==> polls == PollsUpTo(done, data.Length)
      // success means that, and that the verification, if asked for, had an answer
      ensures ok <==> outcome == Destroyed
      ensures ok <==> !present && (verify ==> env.stillThere.Some?)
      ensures verified == if ok && verify then Some(!env.stillThere.value) else None
      // the first poll that finds the event set ends the run
      ensures outcome == CancelledBefore ==> done == 0 && prefix == 0 && polls == 1 && env.cancel(0)
      ensures outcome.CancelledIn? ==> CancelledAt(done, prefix)
      ensures outcome == CancelledBefore || outcome.CancelledIn? || Quiet(env, polls)
      ensures outcome.CancelledIn? || outcome.FailedIn? ==>
                done == outcome.pass - 1 && 1 <= outcome.pass <= passes
      // only a refused system call makes the run fail
      ensures outcome.FailedIn? ==> Refused(env, outcome.pass, prefix, data.Length)
      ensures outcome == Failed ==>
                || (present && (!env.stats || (rename && !env.renames)) && done == 0 && prefix == 0)
                || (!present && verify && env.stillThere == None)
                || (present && !env.removes && done == (if passes < 0 then 0 else passes) && prefix == 0)
    {
      done, prefix, verified := 0, 0, None;
      ghost var original := data[..];
      assert original == Contents(original, env.random, 0, 0);
      if !env.stats || (rename && !env.renames) {
        return false, Failed, None, 0, 0;
      }
      var c := Cancelled();
      if c {
        return false, CancelledBefore, None, 0, 0;
      }
      var end;
      done, prefix, end := OverwriteAll(original, passes);
      CancellationDisturbs(done, prefix, if passes < 0 then 0 else passes, rename);
      if end == Interrupted {
        return false, CancelledIn(done + 1), None, done, prefix;
      }
      if end == Broken {
        RefusalDisturbs(env, passes, rename, data.Length, done + 1, prefix);
        return false, FailedIn(done + 1), None, done, prefix;
      }
      if !env.removes {
        return false, Failed, None, done, prefix;
      }
      present := false;
      if verify {
        if env.stillThere == None {
          return false, Failed, None, done, prefix;
        }
        verified := Some(!env.stillThere.value);
      }
      return true, Destroyed, verified, done, prefix;
    }
  }

  lemma WholePass(original: seq<Byte>, random: (nat, nat) -> Byte, k: nat)
    ensures Contents(original, random, k, |original|) == Contents(original, random, k + 1, 0)
  {
  }

  lemma WholePassWrites(writes: seq<Write>, size: nat, k: nat)
    requires WroteOnce(writes, size, k, size)
    ensures WroteOnce(writes, size, k + 1, 0)
  {
  }
}
