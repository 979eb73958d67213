/** Threads that race to cache the flattened copy of one composite: each finds a buffer and returns it, or
    makes one and tries to install it with a compare-and-swap. */
module FlattenRace {
  import opened DataRope
  import opened Options

  datatype Owner = Maker(t: nat) | Installed | Freed

  datatype Buffer = Buffer(bytes: seq<Byte>, owner: Owner)

  /** `Made(b)`: buffer b is filled and about to be installed. */
  datatype Phase = Begin | Made(b: nat) | Returned(b: nat)

  /** `buf` is the object's field; `bytes` is what the object denotes, and so what each copy holds. */
  datatype State = State(bytes: seq<Byte>, buf: Option<nat>, buffers: seq<Buffer>, threads: seq<Phase>)

  datatype Label = Look(t: nat) | Swap(t: nat)

  function Init(bytes: seq<Byte>, n: nat): State { State(bytes, None, [], seq(n, i => Begin)) }

  predicate Enabled(s: State, l: Label) {
    match l
    case Look(t) => t < |s.threads| && s.threads[t].Begin?
    case Swap(t) => t < |s.threads| && s.threads[t].Made? && s.threads[t].b < |s.buffers|
  }

  function Step(s: State, l: Label): State
    requires Enabled(s, l)
  {
    match l
    case Look(t) =>
      if s.buf.Some? then s.(threads := s.threads[t := Returned(s.buf.value)])
      else s.(buffers := s.buffers + [Buffer(s.bytes, Maker(t))], threads := s.threads[t := Made(|s.buffers|)])
    case Swap(t) =>
      var b := s.threads[t].b;
      if s.buf.None? then
        s.(buf := Some(b), threads := s.threads[t := Returned(b)],
           buffers := s.buffers[b := s.buffers[b].(owner := Installed)])
      else
        s.(threads := s.threads[t := Returned(s.buf.value)],
           buffers := s.buffers[b := s.buffers[b].(owner := Freed)])
  }

  ghost predicate Run(s: State, ls: seq<Label>, t: State)
    decreases |ls|
  {
    if |ls| == 0 then t == s
    else
      var k := |ls| - 1;
      exists m :: Run(s, ls[..k], m) && Enabled(m, ls[k]) && t == Step(m, ls[k])
  }

  /** Each buffer is a full copy; its maker is about to install it, or it is the installed one, or freed. */
  ghost predicate Inv(s: State) {
    && (forall b :: 0 <= b < |s.buffers| ==> s.buffers[b].bytes == s.bytes)
    && (s.buf.Some? ==> s.buf.value < |s.buffers| && s.buffers[s.buf.value].owner == Installed)
    && (forall b :: 0 <= b < |s.buffers| && s.buffers[b].owner == Installed ==> s.buf == Some(b))
    && (forall b :: 0 <= b < |s.buffers| && s.buffers[b].owner.Maker? ==>
          s.buffers[b].owner.t < |s.threads| && s.threads[s.buffers[b].owner.t] == Made(b))
    && (forall t: nat :: t < |s.threads| && s.threads[t].Made? ==>
          s.threads[t].b < |s.buffers| && s.buffers[s.threads[t].b].owner == Maker(t))
    && (forall t :: 0 <= t < |s.threads| && s.threads[t].Returned? ==> s.buf == Some(s.threads[t].b))
  }

  lemma StepKeepsInv(s: State, l: Label)
    requires Inv(s) && Enabled(s, l)
    ensures Inv(Step(s, l)) && Step(s, l).bytes == s.bytes && |Step(s, l).threads| == |s.threads|
  {}

  lemma {:induction false} RunKeepsInv(s: State, ls: seq<Label>, t: State)
    requires Inv(s) && Run(s, ls, t)
    ensures Inv(t) && t.bytes == s.bytes && |t.threads| == |s.threads|
    decreases |ls|
  {
    hide Inv, Enabled, Step;
    if |ls| > 0 {
      var k := |ls| - 1;
      var m :| Run(s, ls[..k], m) && Enabled(m, ls[k]) && t == Step(m, ls[k]);
      RunKeepsInv(s, ls[..k], m);
      StepKeepsInv(m, ls[k]);
    }
  }

  /** All threads return the one installed buffer, which holds the object's bytes and is not freed. */
  lemma AllReturnTheInstalled(bytes: seq<Byte>, n: nat, ls: seq<Label>, s: State, t: nat, u: nat)
    requires Run(Init(bytes, n), ls, s) && t < |s.threads| && u < |s.threads| && s.threads[t].Returned?
    ensures s.buf == Some(s.threads[t].b) && s.threads[t].b < |s.buffers|
    ensures s.buffers[s.threads[t].b] == Buffer(bytes, Installed)
    ensures s.threads[u].Returned? ==> s.threads[u].b == s.threads[t].b
  {
    hide Run;
    RunKeepsInv(Init(bytes, n), ls, s);
  }

  /** A thread about to free a buffer frees the one it made, which nobody was given. */
  lemma LosersFreeTheirOwn(bytes: seq<Byte>, n: nat, ls: seq<Label>, s: State, t: nat, u: nat)
    requires Run(Init(bytes, n), ls, s) && Enabled(s, Swap(t)) && u < |s.threads|
    ensures s.buffers[s.threads[t].b].owner == Maker(t)
    ensures s.threads[u].Returned? ==> s.threads[u].b != s.threads[t].b
  {
    hide Run;
    RunKeepsInv(Init(bytes, n), ls, s);
  }

  /** Nothing leaks: once all threads returned, every other buffer was freed. */
  lemma OnlyLosersAreFreed(bytes: seq<Byte>, n: nat, ls: seq<Label>, s: State, b: nat)
    requires Run(Init(bytes, n), ls, s) && b < |s.buffers|
    requires forall t :: 0 <= t < |s.threads| ==> s.threads[t].Returned?
    ensures s.buffers[b].owner == Freed <==> s.buf != Some(b)
  {
    hide Run;
    RunKeepsInv(Init(bytes, n), ls, s);
  }

  /** How many steps a thread has still to make at most. */
  function StepsLeft(p: Phase): nat { if p.Begin? then 2 else if p.Made? then 1 else 0 }

  /** Nobody waits, and everybody returns after two steps at most: one if a buffer is there already, and then
      nothing is copied. */
  lemma EverybodyReturns(bytes: seq<Byte>, n: nat, ls: seq<Label>, s: State, t: nat)
    requires Run(Init(bytes, n), ls, s) && t < |s.threads|
    ensures s.threads[t].Begin? ==> Enabled(s, Look(t))
    ensures s.threads[t].Made? ==> Enabled(s, Swap(t))
    ensures Enabled(s, Look(t)) ==>
              && StepsLeft(Step(s, Look(t)).threads[t]) == (if s.buf.Some? then 0 else 1)
              && |Step(s, Look(t)).buffers| == |s.buffers| + if s.buf.Some? then 0 else 1
    ensures Enabled(s, Swap(t)) ==> StepsLeft(Step(s, Swap(t)).threads[t]) == 0 && Step(s, Swap(t)).buf.Some?
  {
    hide Run;
    RunKeepsInv(Init(bytes, n), ls, s);
  }
}
