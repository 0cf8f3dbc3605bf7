/** The bounded duplicate gates: a queue and a set kept in step with a sliding window. */
module DedupGates {
  import opened Prelude

  type BarKey = nat
  type StreamKey = nat

  datatype BarEvent = BarEvent(key: BarKey, stream: StreamKey, start: Time, closed: bool, final: bool)

  predicate Actionable(b: BarEvent) { b.closed && b.final }

  datatype Verdict = Emit | Duplicate | NonActionable

  // ------------------------------------------------------------ the window spec

  /** An actionable bar is let through unless its key is among the last keys let through. */
  function Judge(emitted: seq<BarKey>, capacity: nat, b: BarEvent): Verdict {
    if !Actionable(b) then NonActionable
    else if b.key in LastOf(emitted, capacity) then Duplicate
    else Emit
  }

  /** The keys let through by a run of bars. */
  function EmittedBy(bars: seq<BarEvent>, capacity: nat): seq<BarKey> {
    if bars == [] then []
    else
      var before, b := EmittedBy(bars[..|bars| - 1], capacity), bars[|bars| - 1];
      if Judge(before, capacity, b) == Emit then before + [b.key] else before
  }

  /** Any capacity + 1 consecutive keys are pairwise distinct. */
  ghost predicate WindowsDistinct(keys: seq<BarKey>, capacity: nat) {
    forall i, j :: 0 <= i < j < |keys| && j - i <= capacity ==> keys[i] != keys[j]
  }

  lemma {:induction false} EmittedWindowsAreDistinct(bars: seq<BarEvent>, capacity: nat)
    ensures WindowsDistinct(EmittedBy(bars, capacity), capacity)
  {
    if bars != [] {
      EmittedWindowsAreDistinct(bars[..|bars| - 1], capacity);
      var before, b := EmittedBy(bars[..|bars| - 1], capacity), bars[|bars| - 1];
      if Judge(before, capacity, b) == Emit {
        forall i | 0 <= i < |before| && |before| - i <= capacity ensures before[i] != b.key {
          var window := LastOf(before, capacity);
          assert before[i] == window[i - (|before| - |window|)];
        }
      }
    }
  }

  /** A bar is refused as a duplicate exactly when its key was let through within the
      last capacity keys. */
  lemma {:induction false} RefusedIffRecent(bars: seq<BarEvent>, capacity: nat, b: BarEvent)
    requires Actionable(b)
    ensures
      var emitted := EmittedBy(bars, capacity);
      Judge(emitted, capacity, b) == Duplicate
      <==> exists i :: 0 <= i < |emitted| && |emitted| - i <= capacity && emitted[i] == b.key
  {
    var emitted := EmittedBy(bars, capacity);
    var window := LastOf(emitted, capacity);
    if b.key in window {
      var k :| 0 <= k < |window| && window[k] == b.key;
      assert emitted[k + (|emitted| - |window|)] == b.key;
    }
    forall i | 0 <= i < |emitted| && |emitted| - i <= capacity && emitted[i] == b.key ensures b.key in window {
      assert window[i - (|emitted| - |window|)] == b.key;
    }
  }

  // ------------------------------------------------------------------ the queue

  predicate NoRepeats(s: seq<BarKey>) { forall i, j :: 0 <= i < j < |s| ==> s[i] != s[j] }

  predicate SameElements(s: seq<BarKey>, elements: set<BarKey>) {
    (forall x :: x in s ==> x in elements) && (forall x :: x in elements ==> x in s)
  }

  /** The newest key enters; the oldest leaves once there are more than capacity. */
  function Pushed(recent: seq<BarKey>, key: BarKey, capacity: nat): seq<BarKey> { LastOf(recent + [key], capacity) }

  lemma {:induction false} PushedIsTheWindow(keys: seq<BarKey>, key: BarKey, capacity: nat)
    requires capacity > 0
    ensures Pushed(LastOf(keys, capacity), key, capacity) == LastOf(keys + [key], capacity)
  {
    WindowSlides(keys, key, capacity);
  }

  lemma {:induction false} EvictionKeepsStep(recent: seq<BarKey>, lookup: set<BarKey>)
    requires recent != [] && NoRepeats(recent) && SameElements(recent, lookup)
    ensures NoRepeats(recent[1..]) && SameElements(recent[1..], lookup - {recent[0]})
  {
    forall x | x in lookup - {recent[0]} ensures x in recent[1..] {
      var i :| 0 <= i < |recent| && recent[i] == x;
      assert recent[1..][i - 1] == x;
    }
    forall x | x in recent[1..] ensures x in lookup - {recent[0]} {
      var i :| 0 <= i < |recent| - 1 && recent[1..][i] == x;
      assert recent[i + 1] == x;
    }
  }

  lemma {:induction false} EnteringKeepsStep(recent: seq<BarKey>, lookup: set<BarKey>, key: BarKey)
    requires NoRepeats(recent) && SameElements(recent, lookup) && key !in recent
    ensures NoRepeats(recent + [key]) && SameElements(recent + [key], lookup + {key})
  {
    var pushed := recent + [key];
    assert forall x :: x in pushed <==> x in recent || x == key;
    forall i, j | 0 <= i < j < |pushed| ensures pushed[i] != pushed[j] {
      assert pushed[i] == recent[i] && recent[i] in recent;
      assert j < |recent| ==> pushed[j] == recent[j];
    }
  }

  /** The oldest keys leave queue and set together until capacity is met. */
  method Evict(pushed: seq<BarKey>, lookup0: set<BarKey>, capacity: nat)
    returns (recent: seq<BarKey>, lookup: set<BarKey>)
    requires NoRepeats(pushed) && SameElements(pushed, lookup0)
    ensures recent == LastOf(pushed, capacity) && NoRepeats(recent) && SameElements(recent, lookup)
  {
    recent, lookup := pushed, lookup0;
    ghost var gone := 0;
    while |recent| > capacity
      invariant 0 <= gone <= |pushed| && recent == pushed[gone..] && (gone > 0 ==> |recent| >= capacity)
      invariant NoRepeats(recent) && SameElements(recent, lookup)
    {
      EvictionKeepsStep(recent, lookup);
      var expired := recent[0];
      recent := recent[1..];
      lookup := lookup - {expired};
      gone := gone + 1;
    }
  }

  /** The gate at the strategy boundary. */
  class BarTriggerGate {
    const capacity: nat
    var recent: seq<BarKey>
    var lookup: set<BarKey>
    ghost var seen: seq<BarEvent>

    ghost predicate Valid()
      reads this
    {
      && capacity > 0
      && recent == LastOf(EmittedBy(seen, capacity), capacity)
      && NoRepeats(recent) && SameElements(recent, lookup)
    }

    constructor (recentCapacity: nat)
      requires recentCapacity > 0
      ensures Valid() && seen == [] && capacity == recentCapacity
    {
      capacity, recent, lookup, seen := recentCapacity, [], {}, [];
    }

    method Allow(b: BarEvent) returns (allowed: bool, verdict: Verdict)
      requires Valid()
      modifies this
      ensures Valid() && seen == old(seen) + [b]
      ensures verdict == Judge(EmittedBy(old(seen), capacity), capacity, b) && (allowed <==> verdict == Emit)
      ensures EmittedBy(seen, capacity)
           == if allowed then EmittedBy(old(seen), capacity) + [b.key] else EmittedBy(old(seen), capacity)
    {
      SeenGrows(seen, b, capacity);
      if !Actionable(b) {
        seen := seen + [b];
        return false, NonActionable;
      }
      if b.key in lookup {
        seen := seen + [b];
        return false, Duplicate;
      }
      PushedIsTheWindow(EmittedBy(seen, capacity), b.key, capacity);
      seen := seen + [b];
      Remember(b.key);
      return true, Emit;
    }

    method Remember(key: BarKey)
      requires NoRepeats(recent) && SameElements(recent, lookup) && key !in recent
      modifies this`recent, this`lookup
      ensures recent == Pushed(old(recent), key, capacity) && NoRepeats(recent) && SameElements(recent, lookup)
    {
      EnteringKeepsStep(recent, lookup, key);
      lookup := lookup + {key};
      recent := recent + [key];
      recent, lookup := Evict(recent, lookup, capacity);
    }
  }

  lemma {:induction false} SeenGrows(seen: seq<BarEvent>, b: BarEvent, capacity: nat)
    ensures EmittedBy(seen + [b], capacity)
         == if Judge(EmittedBy(seen, capacity), capacity, b) == Emit then EmittedBy(seen, capacity) + [b.key]
            else EmittedBy(seen, capacity)
  {
    assert (seen + [b])[..|seen|] == seen;
  }

  /** The last bar let through on a stream. */
  function LastFinal(bars: seq<BarEvent>, capacity: nat, stream: StreamKey): Option<BarEvent> {
    if bars == [] then None
    else
      var front, b := bars[..|bars| - 1], bars[|bars| - 1];
      if b.stream == stream && Judge(EmittedBy(front, capacity), capacity, b) == Emit then Some(b)
      else LastFinal(front, capacity, stream)
  }

  /** The collector's gate: the same window, and the latest bar of every stream beside it. */
  class FinalBarGate {
    const capacity: nat
    var recent: seq<BarKey>
    var lookup: set<BarKey>
    var lastByStream: map<StreamKey, BarEvent>
    ghost var seen: seq<BarEvent>

    ghost predicate Valid()
      reads this
    {
      && capacity > 0
      && recent == LastOf(EmittedBy(seen, capacity), capacity)
      && NoRepeats(recent) && SameElements(recent, lookup)
      && forall s :: LastFinal(seen, capacity, s) == if s in lastByStream then Some(lastByStream[s]) else None
    }

    constructor (recentCapacity: nat)
      requires recentCapacity > 0
      ensures Valid() && seen == [] && capacity == recentCapacity
    {
      capacity, recent, lookup, lastByStream, seen := recentCapacity, [], {}, map[], [];
    }

    method Process(b: BarEvent) returns (verdict: Verdict)
      requires Valid()
      modifies this
      ensures Valid() && seen == old(seen) + [b]
      ensures verdict == Judge(EmittedBy(old(seen), capacity), capacity, b)
      ensures lastByStream == if verdict == Emit then old(lastByStream)[b.stream := b] else old(lastByStream)
    {
      SeenGrows(seen, b, capacity);
      assert (seen + [b])[..|seen|] == seen;
      if !Actionable(b) {
        seen := seen + [b];
        return NonActionable;
      }
      if b.key in lookup {
        seen := seen + [b];
        return Duplicate;
      }
      PushedIsTheWindow(EmittedBy(seen, capacity), b.key, capacity);
      seen := seen + [b];
      Remember(b);
      return Emit;
    }

    method Remember(b: BarEvent)
      requires NoRepeats(recent) && SameElements(recent, lookup) && b.key !in recent
      modifies this`recent, this`lookup, this`lastByStream
      ensures recent == Pushed(old(recent), b.key, capacity) && NoRepeats(recent) && SameElements(recent, lookup)
      ensures lastByStream == old(lastByStream)[b.stream := b]
    {
      EnteringKeepsStep(recent, lookup, b.key);
      lookup := lookup + {b.key};
      recent := recent + [b.key];
      lastByStream := lastByStream[b.stream := b];
      recent, lookup := Evict(recent, lookup, capacity);
    }

    /** Where a backfill of the stream resumes: one timeframe after its latest bar. */
    method NextExpectedBarStart(stream: StreamKey, timeframe: Time) returns (at: Option<Time>)
      requires Valid()
      ensures at == match LastFinal(seen, capacity, stream) case None => None case Some(b) => Some(b.start + timeframe)
    {
      if stream !in lastByStream {
        return None;
      }
      return Some(lastByStream[stream].start + timeframe);
    }
  }

  lemma {:induction false} LongerWindowsHoldMore(keys: seq<BarKey>, n: nat, m: nat, key: BarKey)
    requires n <= m
    ensures key in LastOf(keys, n) ==> key in LastOf(keys, m)
  {
    var near, far := LastOf(keys, n), LastOf(keys, m);
    if key in near {
      var i :| 0 <= i < |near| && near[i] == key;
      assert far[i + |far| - |near|] == key;
    }
  }

  // ------------------------------------------------------- one gate behind the other

  /** A bar on its way: taken tells whether the trader, ready and not paused, hands it on to
      its own gate once the collector's gate has let it through. */
  datatype Delivery = Delivery(bar: BarEvent, taken: bool)

  function Bars(ds: seq<Delivery>): (bars: seq<BarEvent>)
    ensures |bars| == |ds|
  {
    if ds == [] then [] else Bars(ds[..|ds| - 1]) + [ds[|ds| - 1].bar]
  }

  /** The keys the collector's gate lets through. */
  function Collected(ds: seq<Delivery>, capacity: nat): seq<BarKey> { EmittedBy(Bars(ds), capacity) }

  predicate LetThrough(ds: seq<Delivery>, capacity: nat, b: BarEvent) {
    Judge(Collected(ds, capacity), capacity, b) == Emit
  }

  /** The bars that reach the trader's gate: a subsequence of those. */
  function Reaching(ds: seq<Delivery>, capacity: nat): seq<BarEvent> {
    if ds == [] then []
    else
      var front, last := ds[..|ds| - 1], ds[|ds| - 1];
      Reaching(front, capacity) + if last.taken && LetThrough(front, capacity, last.bar) then [last.bar] else []
  }

  /** The keys the trader's gate allows, by its own history. */
  function Triggered(ds: seq<Delivery>, capacity: nat, trigger: nat): seq<BarKey> {
    EmittedBy(Reaching(ds, capacity), trigger)
  }

  /** One more delivery on both sides. */
  lemma {:induction false} OneMoreDelivery(ds: seq<Delivery>, d: Delivery, capacity: nat, trigger: nat)
    ensures
      var collected, triggered := Collected(ds, capacity), Triggered(ds, capacity, trigger);
      && Collected(ds + [d], capacity) ==
           (if LetThrough(ds, capacity, d.bar) then collected + [d.bar.key] else collected)
      && Triggered(ds + [d], capacity, trigger)
         == if d.taken && LetThrough(ds, capacity, d.bar) && Judge(triggered, trigger, d.bar) == Emit
            then triggered + [d.bar.key] else triggered
  {
    assert (ds + [d])[..|ds|] == ds;
    SeenGrows(Bars(ds), d.bar, capacity);
    if d.taken && LetThrough(ds, capacity, d.bar) {
      SeenGrows(Reaching(ds, capacity), d.bar, trigger);
    } else {
      assert Reaching(ds, capacity) + [] == Reaching(ds, capacity);
    }
  }

  /** Every bar the collector's gate lets through is taken. */
  ghost predicate NothingDropped(ds: seq<Delivery>, capacity: nat) {
    forall i :: 0 <= i < |ds| && LetThrough(ds[..i], capacity, ds[i].bar) ==> ds[i].taken
  }

  lemma {:induction false} FrontDropsNothing(ds: seq<Delivery>, capacity: nat)
    requires NothingDropped(ds, capacity) && ds != []
    ensures NothingDropped(ds[..|ds| - 1], capacity)
  {
    var front := ds[..|ds| - 1];
    forall i | 0 <= i < |front| && LetThrough(front[..i], capacity, front[i].bar) ensures front[i].taken {
      assert front[..i] == ds[..i] && front[i] == ds[i];
    }
  }

  /** As long as nothing is dropped on the way, the trader's gate, if it looks back no further
      than the collector's, allows everything that reaches it. */
  lemma {:induction false} TriggerGateRefusesNothing(ds: seq<Delivery>, capacity: nat, trigger: nat)
    requires trigger <= capacity && NothingDropped(ds, capacity)
    ensures Triggered(ds, capacity, trigger) == Collected(ds, capacity)
    ensures forall b :: LetThrough(ds, capacity, b) ==> Judge(Triggered(ds, capacity, trigger), trigger, b) == Emit
  {
    if ds != [] {
      var front, last := ds[..|ds| - 1], ds[|ds| - 1];
      assert ds == front + [last] && ds[..|ds| - 1] == front;
      FrontDropsNothing(ds, capacity);
      TriggerGateRefusesNothing(front, capacity, trigger);
      OneMoreDelivery(front, last, capacity, trigger);
    }
    forall b | LetThrough(ds, capacity, b) ensures b.key !in LastOf(Collected(ds, capacity), trigger) {
      LongerWindowsHoldMore(Collected(ds, capacity), trigger, capacity, b.key);
    }
  }

  /** Delivery i was let through, taken and allowed. */
  predicate AllowedAt(ds: seq<Delivery>, i: nat, capacity: nat, trigger: nat)
    requires i < |ds|
  {
    && ds[i].taken && LetThrough(ds[..i], capacity, ds[i].bar)
    && Judge(Triggered(ds[..i], capacity, trigger), trigger, ds[i].bar) == Emit
  }

  /** Where a key stands in both histories: the delivery that put it there. */
  lemma {:induction false} TriggeredFrom(ds: seq<Delivery>, capacity: nat, trigger: nat, n: nat) returns (i: nat)
    requires n < |Triggered(ds, capacity, trigger)|
    ensures i < |ds| && AllowedAt(ds, i, capacity, trigger) && ds[i].bar.key == Triggered(ds, capacity, trigger)[n]
    ensures |Triggered(ds[..i], capacity, trigger)| == n
    ensures |Collected(ds[..i], capacity)| < |Collected(ds, capacity)|
    ensures Collected(ds, capacity)[|Collected(ds[..i], capacity)|] == ds[i].bar.key
  {
    assert ds != [];
    var front, last := ds[..|ds| - 1], ds[|ds| - 1];
    assert ds == front + [last];
    OneMoreDelivery(front, last, capacity, trigger);
    if n < |Triggered(front, capacity, trigger)| {
      i := TriggeredFrom(front, capacity, trigger, n);
      assert front[..i] == ds[..i];
    } else {
      i := |front|;
      assert ds[..i] == front;
    }
  }

  /** An allowed key stays where it was put. */
  lemma {:induction false} AllowedStands(ds: seq<Delivery>, i: nat, capacity: nat, trigger: nat)
    requires i < |ds| && AllowedAt(ds, i, capacity, trigger)
    ensures
      var n := |Triggered(ds[..i], capacity, trigger)|;
      n < |Triggered(ds, capacity, trigger)| && Triggered(ds, capacity, trigger)[n] == ds[i].bar.key
  {
    var front, last := ds[..|ds| - 1], ds[|ds| - 1];
    assert ds == front + [last];
    OneMoreDelivery(front, last, capacity, trigger);
    if i < |front| {
      assert front[..i] == ds[..i];
      AllowedStands(front, i, capacity, trigger);
    } else {
      assert ds[..i] == front;
    }
  }

  /** How many keys the collector's gate has let through from delivery i on. */
  function LetSince(ds: seq<Delivery>, i: nat, capacity: nat): int
    requires i <= |ds|
  {
    |Collected(ds, capacity)| - |Collected(ds[..i], capacity)|
  }

  /** How many of them the trader's gate has not allowed: dropped on the way, or refused. */
  function LostSince(ds: seq<Delivery>, i: nat, capacity: nat, trigger: nat): int
    requires i <= |ds|
  {
    LetSince(ds, i, capacity) - (|Triggered(ds, capacity, trigger)| - |Triggered(ds[..i], capacity, trigger)|)
  }

  /** The delivery that makes the trader's gate refuse a key: it was allowed, and of what has been
      let through since, all but trigger have been lost. */
  predicate Remembered(ds: seq<Delivery>, i: nat, capacity: nat, trigger: nat, key: BarKey)
    requires i < |ds|
  {
    && AllowedAt(ds, i, capacity, trigger) && ds[i].bar.key == key
    && LostSince(ds, i, capacity, trigger) >= LetSince(ds, i, capacity) - trigger
  }

  /** Exactly then a bar the collector's gate lets through is refused behind it; and more must have
      been lost than the collector's gate looks back further. */
  lemma {:induction false} RefusedBehindIffLost(ds: seq<Delivery>, capacity: nat, trigger: nat, b: BarEvent)
    requires LetThrough(ds, capacity, b)
    ensures Judge(Triggered(ds, capacity, trigger), trigger, b) == Duplicate
      <==> exists i :: 0 <= i < |ds| && Remembered(ds, i, capacity, trigger, b.key)
    ensures forall i :: 0 <= i < |ds| && Remembered(ds, i, capacity, trigger, b.key) ==>
      LostSince(ds, i, capacity, trigger) > capacity - trigger
  {
    var collected, triggered := Collected(ds, capacity), Triggered(ds, capacity, trigger);
    RefusedIffRecent(Reaching(ds, capacity), trigger, b);
    RefusedIffRecent(Bars(ds), capacity, b);
    if Judge(triggered, trigger, b) == Duplicate {
      var n :| 0 <= n < |triggered| && |triggered| - n <= trigger && triggered[n] == b.key;
      var i := TriggeredFrom(ds, capacity, trigger, n);
      assert Remembered(ds, i, capacity, trigger, b.key);
    }
    forall i | 0 <= i < |ds| && Remembered(ds, i, capacity, trigger, b.key)
      ensures Judge(triggered, trigger, b) == Duplicate
      ensures LostSince(ds, i, capacity, trigger) > capacity - trigger
    {
      AllowedStands(ds, i, capacity, trigger);
      var n := |Triggered(ds[..i], capacity, trigger)|;
      var j := TriggeredFrom(ds, capacity, trigger, n);
      SameDelivery(ds, i, j, capacity, trigger);
      assert collected[|Collected(ds[..i], capacity)|] == b.key;
    }
  }

  /** Two deliveries do not put their keys in the same place. */
  lemma {:induction false} SameDelivery(ds: seq<Delivery>, i: nat, j: nat, capacity: nat, trigger: nat)
    requires i < |ds| && j < |ds| && AllowedAt(ds, i, capacity, trigger) && AllowedAt(ds, j, capacity, trigger)
    requires |Triggered(ds[..i], capacity, trigger)| == |Triggered(ds[..j], capacity, trigger)|
    ensures i == j
  {
    if i < j {
      assert ds[..j][..i] == ds[..i];
      AllowedStands(ds[..j], i, capacity, trigger);
    } else if j < i {
      assert ds[..i][..j] == ds[..j];
      AllowedStands(ds[..i], j, capacity, trigger);
    }
  }

  /** A pause: nothing is taken after delivery i. */
  lemma {:induction false} NothingTriggeredInPause(ds: seq<Delivery>, i: nat, capacity: nat, trigger: nat)
    requires i < |ds| && forall k :: i < k < |ds| ==> !ds[k].taken
    ensures Triggered(ds, capacity, trigger) == Triggered(ds[..i + 1], capacity, trigger)
  {
    if i + 1 == |ds| {
      assert ds[..i + 1] == ds;
    } else {
      var front, last := ds[..|ds| - 1], ds[|ds| - 1];
      assert ds == front + [last] && front[..i + 1] == ds[..i + 1];
      NothingTriggeredInPause(front, i, capacity, trigger);
      OneMoreDelivery(front, last, capacity, trigger);
    }
  }

  /** However long the pause, a key allowed right before it is refused right after it. */
  lemma {:induction false} PauseMakesLastKeyRefused(ds: seq<Delivery>, i: nat, capacity: nat, trigger: nat, b: BarEvent)
    requires i < |ds| && AllowedAt(ds, i, capacity, trigger) && ds[i].bar.key == b.key && trigger > 0
    requires forall k :: i < k < |ds| ==> !ds[k].taken
    requires LetThrough(ds, capacity, b)
    ensures Judge(Triggered(ds, capacity, trigger), trigger, b) == Duplicate
  {
    NothingTriggeredInPause(ds, i, capacity, trigger);
    assert ds[..i + 1] == ds[..i] + [ds[i]];
    OneMoreDelivery(ds[..i], ds[i], capacity, trigger);
    assert Remembered(ds, i, capacity, trigger, b.key);
    RefusedBehindIffLost(ds, capacity, trigger, b);
  }

  /** It happens: of three bars with keys 1, 2 and 1 the second reaches the collector while the
      strategy is paused. With room for one key each, the third is let through and refused. */
  lemma {:induction false} PausedBarMakesTheNextRefused()
    ensures
      var one, two := BarEvent(1, 0, 0, true, true), BarEvent(2, 0, 1, true, true);
      var ds := [Delivery(one, true), Delivery(two, false)];
      LetThrough(ds, 1, one) && Judge(Triggered(ds, 1, 1), 1, one) == Duplicate
  {
    var one, two := Delivery(BarEvent(1, 0, 0, true, true), true), Delivery(BarEvent(2, 0, 1, true, true), false);
    OneMoreDelivery([], one, 1, 1);
    OneMoreDelivery([] + [one], two, 1, 1);
    assert [] + [one] + [two] == [one, two];
  }

  /** A bar is let through exactly when it is closed and final and not among the last keys let
      through, and answered non-actionable exactly when it is not both. */
  lemma {:induction false} JudgementIsExact(bars: seq<BarEvent>, capacity: nat, b: BarEvent)
    ensures
      var emitted := EmittedBy(bars, capacity);
      && (Judge(emitted, capacity, b) == NonActionable <==> !b.closed || !b.final)
      && (Judge(emitted, capacity, b) == Emit <==>
            b.closed && b.final
            && forall i :: 0 <= i < |emitted| && |emitted| - i <= capacity ==> emitted[i] != b.key)
  {
    if Actionable(b) { RefusedIffRecent(bars, capacity, b); }
  }

  /** Bar i of the run was let through, on this stream. */
  ghost predicate LetOnStream(bars: seq<BarEvent>, capacity: nat, stream: StreamKey, i: nat) {
    i < |bars| && bars[i].stream == stream && Judge(EmittedBy(bars[..i], capacity), capacity, bars[i]) == Emit
  }

  lemma {:induction false} LetOnStreamBefore(bars: seq<BarEvent>, capacity: nat, stream: StreamKey, n: nat, k: nat)
    requires k < n <= |bars|
    ensures LetOnStream(bars[..n], capacity, stream, k) <==> LetOnStream(bars, capacity, stream, k)
  {
    assert bars[..n][..k] == bars[..k];
  }

  /** The last bar of a stream is the one let through on it that none let through on it follows. */
  lemma {:induction false} LastFinalIsLast(bars: seq<BarEvent>, capacity: nat, stream: StreamKey) returns (i: nat)
    requires LastFinal(bars, capacity, stream).Some?
    ensures LetOnStream(bars, capacity, stream, i) && LastFinal(bars, capacity, stream) == Some(bars[i])
    ensures forall k: nat :: i < k < |bars| ==> !LetOnStream(bars, capacity, stream, k)
  {
    i := |bars| - 1;
    if !LetOnStream(bars, capacity, stream, i) {
      var n := i;
      i := LastFinalIsLast(bars[..n], capacity, stream);
      LetOnStreamBefore(bars, capacity, stream, n, i);
      forall k: nat | i < k < |bars| ensures !LetOnStream(bars, capacity, stream, k) {
        if k < n { LetOnStreamBefore(bars, capacity, stream, n, k); }
      }
    }
  }

  /** Without a last bar none has been let through on the stream. */
  lemma {:induction false} NoLastFinal(bars: seq<BarEvent>, capacity: nat, stream: StreamKey, k: nat)
    requires LastFinal(bars, capacity, stream).None? && k < |bars|
    ensures !LetOnStream(bars, capacity, stream, k)
  {
    var n := |bars| - 1;
    if k < n {
      NoLastFinal(bars[..n], capacity, stream, k);
      LetOnStreamBefore(bars, capacity, stream, n, k);
    }
  }
}
