/** The asynchronous activity logger: a bounded channel, a goroutine that batches what it receives,
    and a drain on shutdown (activity/logger.go). */
module ActivityLog {

  const BUFFER_SIZE := 500
  const BATCH_SIZE := 100

  datatype Phase = Running | Draining | Exited

  /** The goroutine's and the channel's state; `accepted` remembers what LogAsync queued, in order. */
  datatype State<T> =
    State(channel: seq<T>, pending: seq<T>, handed: seq<seq<T>>, accepted: seq<T>, stopped: bool, phase: Phase)

  datatype Event<T> =
    | LogAsync(entry: T)   // a caller offers an entry
    | Receive              // the loop takes an entry from the channel
    | Tick                 // the ticker fires
    | Shutdown             // stopCh is closed
    | NoticeStop           // the loop selects the closed stopCh
    | Drain                // the drain takes an entry
    | Return               // the drain finds the channel empty

  function Start<T>(): State<T> { State([], [], [], [], false, Running) }

  /** flush: hand everything pending to BatchInsert, if there is anything. */
  function Flushed<T>(s: State<T>): State<T> {
    if s.pending == [] then s else s.(pending := [], handed := s.handed + [s.pending])
  }

  function Take<T>(s: State<T>): State<T>
    requires s.channel != []
  {
    s.(channel := s.channel[1..], pending := s.pending + [s.channel[0]])
  }

  /** One event of any interleaving; an event that cannot happen leaves the state as it is. */
  function Step<T>(s: State<T>, e: Event<T>): State<T> {
    match e
    case LogAsync(entry) =>
      if |s.channel| < BUFFER_SIZE then s.(channel := s.channel + [entry], accepted := s.accepted + [entry]) else s
    case Receive =>
      if s.phase.Running? && s.channel != [] then
        var taken := Take(s);
        if |taken.pending| >= BATCH_SIZE then Flushed(taken) else taken
      else s
    case Tick => if s.phase.Running? then Flushed(s) else s
    case Shutdown => s.(stopped := true)
    case NoticeStop => if s.phase.Running? && s.stopped then s.(phase := Draining) else s
    case Drain => if s.phase.Draining? && s.channel != [] then Take(s) else s
    case Return => if s.phase.Draining? && s.channel == [] then Flushed(s).(phase := Exited) else s
  }

  function Run<T>(s: State<T>, es: seq<Event<T>>): State<T> {
    if es == [] then s else Step(Run(s, es[..|es| - 1]), es[|es| - 1])
  }

  // ── What an event does ────────────────────────────────────────────────────────────────

  /** What is handed over at an event: all that is pending, when the ticker fires or the drain is
      through, and with the entry received when that makes a hundred. */
  function HandedAt<T>(s: State<T>, e: Event<T>): seq<T> {
    match e
    case Receive =>
      if s.phase == Running && s.channel != [] && |s.pending| >= 99 then s.pending + s.channel[..1] else []
    case Tick => if s.phase == Running then s.pending else []
    case Return => if s.phase == Draining && s.channel == [] then s.pending else []
    case _ => []
  }

  /** Exactly that becomes one more batch, and nothing becomes a batch otherwise. */
  lemma HandsOver<T>(s: State<T>, e: Event<T>)
    ensures Step(s, e).handed == s.handed + (if HandedAt(s, e) == [] then [] else [HandedAt(s, e)])
    ensures HandedAt(s, e) != [] ==> Step(s, e).pending == []
  {
    assert s.channel != [] ==> s.channel[..1] == [s.channel[0]];
  }

  /** An entry is accepted exactly when the channel has room; the loop and the drain take one entry at
      a time; the goroutine drains once it notices the stop and returns once the channel is empty. */
  lemma Moves<T>(s: State<T>, e: Event<T>)
    ensures Step(s, e).accepted == s.accepted + (if e.LogAsync? && |s.channel| < 500 then [e.entry] else [])
    ensures var takes := (e.Receive? && s.phase == Running) || (e.Drain? && s.phase == Draining);
            Step(s, e).channel == if e.LogAsync? && |s.channel| < 500 then s.channel + [e.entry]
                                  else if takes && s.channel != [] then s.channel[1..] else s.channel
    ensures Step(s, e).stopped == (s.stopped || e.Shutdown?)
    ensures Step(s, e).phase == if e.NoticeStop? && s.phase == Running && s.stopped then Draining
                                else if e.Return? && s.phase == Draining && s.channel == [] then Exited else s.phase
  {
  }

  // ── Nothing is lost or reordered ──────────────────────────────────────────────────────

  function Flatten<T>(batches: seq<seq<T>>): seq<T> {
    if batches == [] then [] else Flatten(batches[..|batches| - 1]) + batches[|batches| - 1]
  }

  lemma FlattenStep<T>(batches: seq<seq<T>>, batch: seq<T>)
    ensures Flatten(batches + [batch]) == Flatten(batches) + batch
  {
    assert (batches + [batch])[..|batches|] == batches;
  }

  /** Every accepted entry is in exactly one place, in the order of acceptance. */
  predicate Conserved<T(==)>(s: State<T>) {
    Flatten(s.handed) + s.pending + s.channel == s.accepted
  }

  predicate Sizes<T(==)>(s: State<T>) {
    && |s.channel| <= BUFFER_SIZE
    && (s.phase.Running? ==> |s.pending| < BATCH_SIZE)
    && (s.phase.Exited? ==> s.pending == [])
    && (!s.phase.Running? ==> s.stopped)
  }

  /** Batches are never empty, and only the one the drain ends with may be longer than a batch. */
  predicate Batches<T(==)>(s: State<T>) {
    && (forall i :: 0 <= i < |s.handed| ==> s.handed[i] != [])
    && (forall i :: 0 <= i < |s.handed| && |s.handed[i]| > BATCH_SIZE ==> i == |s.handed| - 1 && s.phase.Exited?)
  }

  predicate Sound<T(==)>(s: State<T>) { Conserved(s) && Sizes(s) && Batches(s) }

  lemma FlushConserves<T>(s: State<T>)
    ensures Conserved(Flushed(s)) == Conserved(s)
  {
    if s.pending != [] {
      FlattenStep(s.handed, s.pending);
      assert Flatten(s.handed) + s.pending + [] + s.channel == Flatten(s.handed) + s.pending + s.channel;
    }
  }

  lemma TakeConserves<T>(s: State<T>)
    requires s.channel != []
    ensures Conserved(Take(s)) == Conserved(s)
  {
    assert s.pending + s.channel == s.pending + [s.channel[0]] + s.channel[1..];
    assert Flatten(s.handed) + (s.pending + [s.channel[0]]) + s.channel[1..]
        == Flatten(s.handed) + s.pending + s.channel;
  }

  lemma StepConserves<T>(s: State<T>, e: Event<T>)
    requires Conserved(s)
    ensures Conserved(Step(s, e))
  {
    hide Flushed;
    match e
    case LogAsync(entry) =>
      assert Flatten(s.handed) + s.pending + (s.channel + [entry])
          == Flatten(s.handed) + s.pending + s.channel + [entry];
    case Receive =>
      if s.phase.Running? && s.channel != [] {
        TakeConserves(s);
        FlushConserves(Take(s));
      }
    case Tick => FlushConserves(s);
    case Drain =>
      if s.phase.Draining? && s.channel != [] {
        TakeConserves(s);
      }
    case Return =>
      FlushConserves(s);
      PhaseConserves(Flushed(s));
    case _ =>
  }

  lemma PhaseConserves<T>(s: State<T>)
    ensures Conserved(s.(phase := Exited)) == Conserved(s)
  {
  }

  lemma StepSizes<T>(s: State<T>, e: Event<T>)
    requires Sizes(s) && Batches(s)
    ensures Sizes(Step(s, e)) && Batches(Step(s, e))
  {
  }

  lemma StepIsSound<T>(s: State<T>, e: Event<T>)
    requires Sound(s)
    ensures Sound(Step(s, e))
  {
    hide Step;
    hide Conserved;
    hide Sizes;
    hide Batches;
    StepConserves(s, e);
    StepSizes(s, e);
  }

  /** Through every interleaving of callers, ticker, shutdown and goroutine: the batches, what is
      pending and what is queued are the accepted entries in order; less than a batch is pending
      outside the drain and nothing after it. */
  lemma {:induction false} RunIsSound<T>(es: seq<Event<T>>)
    ensures Sound(Run(Start(), es))
    decreases |es|
  {
    if es != [] {
      RunIsSound(es[..|es| - 1]);
      StepIsSound(Run(Start(), es[..|es| - 1]), es[|es| - 1]);
    }
  }

  // ── Shutdown ──────────────────────────────────────────────────────────────────────────

  /** When the goroutine returns everything accepted so far has been handed over. */
  lemma ReturnHandsAll<T>(s: State<T>)
    requires Sound(s) && s.phase.Draining? && s.channel == []
    ensures Step(s, Return).phase.Exited? && Flatten(Step(s, Return).handed) == s.accepted
  {
    StepIsSound(s, Return);
  }

  /** After that no batch is ever written, while callers go on having entries accepted: everything
      accepted was handed over if and only if the channel is empty. */
  lemma {:induction false} LateEntriesStay<T>(s: State<T>, es: seq<Event<T>>)
    requires Sound(s) && s.phase.Exited?
    ensures var after := Run(s, es);
            && Sound(after) && after.phase.Exited? && after.handed == s.handed
            && (Flatten(after.handed) == after.accepted <==> after.channel == [])
            && |after.accepted| - |Flatten(after.handed)| == |after.channel| <= BUFFER_SIZE
    decreases |es|
  {
    if es != [] {
      LateEntriesStay(s, es[..|es| - 1]);
      StepIsSound(Run(s, es[..|es| - 1]), es[|es| - 1]);
    }
  }

  /** An entry logged after the goroutine returned is accepted and lost. */
  lemma LateEntryIsLost<T>(s: State<T>, entry: T, es: seq<Event<T>>)
    requires Sound(s) && s.phase.Exited? && s.channel == []
    ensures Step(s, LogAsync(entry)).accepted == s.accepted + [entry]
    ensures Flatten(Run(Step(s, LogAsync(entry)), es).handed) == s.accepted
  {
    StepIsSound(s, LogAsync(entry));
    LateEntriesStay(s, []);
    LateEntriesStay(Step(s, LogAsync(entry)), es);
  }

  /** Undisturbed, the drain ends with one batch of everything pending and queued: the batch limit
      does not apply to it. */
  lemma {:induction false} DrainIsOneBatch<T>(s: State<T>, es: seq<Event<T>>)
    requires s.phase.Draining? && |es| == |s.channel| + 1
    requires es[|s.channel|] == Return && forall i :: 0 <= i < |s.channel| ==> es[i] == Drain
    ensures Run(s, es) == Flushed(s.(channel := [], pending := s.pending + s.channel)).(phase := Exited)
  {
    Drained(s, es[..|s.channel|]);
    assert s.channel[|s.channel|..] == [] && s.channel[..|s.channel|] == s.channel;
  }

  lemma {:induction false} Drained<T>(s: State<T>, es: seq<Event<T>>)
    requires s.phase.Draining? && |es| <= |s.channel|
    requires forall i :: 0 <= i < |es| ==> es[i] == Drain
    ensures Run(s, es) == s.(channel := s.channel[|es|..], pending := s.pending + s.channel[..|es|])
    decreases |es|
  {
    var n := |es|;
    if n == 0 {
      assert s.pending + s.channel[..0] == s.pending && s.channel[0..] == s.channel;
    } else {
      Drained(s, es[..n - 1]);
      assert s.channel[n - 1..][1..] == s.channel[n..];
      assert s.channel[..n - 1] + [s.channel[n - 1]] == s.channel[..n];
      assert s.pending + s.channel[..n - 1] + [s.channel[n - 1]] == s.pending + s.channel[..n];
    }
  }

  // ── The logger ────────────────────────────────────────────────────────────────────────

  class Logger<T(==)> {
    var channel: seq<T>
    var pending: seq<T>
    var handed: seq<seq<T>>
    ghost var accepted: seq<T>
    var stopped: bool
    var phase: Phase

    ghost function Now(): State<T>
      reads this
    {
      State(channel, pending, handed, accepted, stopped, phase)
    }

    constructor ()
      ensures Now() == Start() && Sound(Now())
    {
      channel, pending, handed, accepted, stopped, phase := [], [], [], [], false, Running;
    }

    /** Never blocks: a full buffer drops the entry. */
    method LogAsync(entry: T) returns (queued: bool)
      requires Sound(Now())
      modifies this
      ensures Sound(Now()) && Now() == Step(old(Now()), Event.LogAsync(entry))
      ensures queued == (|old(channel)| < BUFFER_SIZE)
    {
      StepIsSound(Now(), Event.LogAsync(entry));
      queued := |channel| < BUFFER_SIZE;
      if queued {
        channel, accepted := channel + [entry], accepted + [entry];
      }
    }

    method Flush()
      modifies this
      ensures Now() == Flushed(old(Now()))
    {
      if |pending| == 0 {
        return;
      }
      var batch := pending;
      pending := [];
      handed := handed + [batch];
    }

    /** The loop receives an entry, and flushes when a batch is full. */
    method Receive()
      requires Sound(Now()) && phase.Running? && channel != []
      modifies this
      ensures Sound(Now()) && Now() == Step(old(Now()), Event.Receive)
    {
      ghost var was := Now();
      StepIsSound(was, Event.Receive);
      hide Sound;
      pending, channel := pending + [channel[0]], channel[1..];
      assert Now() == Take(was);
      hide Take;
      if |pending| >= BATCH_SIZE {
        Flush();
      }
    }

    method Tick()
      requires Sound(Now()) && phase.Running?
      modifies this
      ensures Sound(Now()) && Now() == Step(old(Now()), Event.Tick)
    {
      StepIsSound(Now(), Event.Tick);
      Flush();
    }

    method Shutdown()
      requires Sound(Now())
      modifies this
      ensures Sound(Now()) && Now() == Step(old(Now()), Event.Shutdown)
    {
      StepIsSound(Now(), Event.Shutdown);
      stopped := true;
    }

    /** The loop selects the closed stop channel: drain what is queued, flush and return. */
    method Stop()
      requires Sound(Now()) && phase.Running? && stopped
      modifies this
      ensures Sound(Now()) && phase.Exited? && channel == [] && accepted == old(accepted)
      ensures handed == if old(pending + channel) == [] then old(handed) else old(handed) + [old(pending + channel)]
      ensures Flatten(handed) == accepted
    {
      hide Sound;
      StepIsSound(Now(), NoticeStop);
      ghost var all := pending + channel;
      phase := Draining;
      while channel != []
        invariant phase.Draining? && stopped && Sound(Now())
        invariant handed == old(handed) && accepted == old(accepted)
        invariant pending + channel == all
        decreases |channel|
      {
        StepIsSound(Now(), Drain);
        assert pending + [channel[0]] + channel[1..] == pending + channel;
        pending, channel := pending + [channel[0]], channel[1..];
      }
      assert pending == all;
      ReturnHandsAll(Now());
      StepIsSound(Now(), Return);
      Flush();
      phase := Exited;
    }
  }
}
