/** How the arrow keys move the sample count (the body of `Example::update`),
    stated on values, and what any sequence of key presses can reach. */
module SampleCount {
  import opened Gpu
  import opened Input

  /** What one event does: the new sample count and whether it asks for a
      rebuild of the bundle and framebuffer. */
  datatype UpdateEffect = UpdateEffect(sampleCount: u32, setsRebuild: bool)

  /** The sample counts the example can be in: 4 at start, and the powers of
      two one halving or doubling step at a time reaches. */
  predicate IsSampleCount(c: u32)
  {
    c == 1 || c == 2 || c == 4 || c == 8 || c == 16 || c == 32
  }

  /** The initial sample count. */
  const INITIAL_SAMPLE_COUNT: u32 := 4

  /** Left halves a count of at least 2; Right doubles a count of at most 16;
      anything else leaves the count alone and asks for nothing. */
  function Step(count: u32, event: WindowEvent): (r: UpdateEffect)
    ensures IsSampleCount(count) ==> IsSampleCount(r.sampleCount)
    ensures IsSampleCount(count) ==> (r.setsRebuild <==> r.sampleCount != count)
    ensures !r.setsRebuild ==> r.sampleCount == count
  {
    if IsPress(event, Left) then
      if count >= 2 then UpdateEffect(ShiftRight1(count), true) else UpdateEffect(count, false)
    else if IsPress(event, Right) then
      if count <= 16 then UpdateEffect(ShiftLeft1(count), true) else UpdateEffect(count, false)
    else UpdateEffect(count, false)
  }

  lemma LeftHalves(count: u32, event: WindowEvent)
    requires IsPress(event, Left)
    ensures count >= 2 ==> Step(count, event) == UpdateEffect(count / 2, true)
    ensures count < 2 ==> Step(count, event) == UpdateEffect(count, false)
  {
  }

  lemma RightDoubles(count: u32, event: WindowEvent)
    requires IsPress(event, Right)
    ensures count <= 16 ==> Step(count, event) == UpdateEffect(2 * count, true)
    ensures count > 16 ==> Step(count, event) == UpdateEffect(count, false)
  {
  }

  /** Releases, other keys, key events without a key code and non-keyboard
      events change nothing. */
  lemma OtherEventsChangeNothing(count: u32, event: WindowEvent)
    requires !IsPress(event, Left) && !IsPress(event, Right)
    ensures Step(count, event) == UpdateEffect(count, false)
  {
  }

  /** The count after a sequence of `update` calls. */
  function CountAfter(count: u32, events: seq<WindowEvent>): (r: u32)
    decreases |events|
  {
    if events == [] then count else CountAfter(Step(count, events[0]).sampleCount, events[1..])
  }

  /** Whether a sequence of `update` calls leaves the rebuild flag set. */
  function RebuildAfter(count: u32, flag: bool, events: seq<WindowEvent>): bool
    decreases |events|
  {
    if events == [] then flag
    else
      var e := Step(count, events[0]);
      RebuildAfter(e.sampleCount, flag || e.setsRebuild, events[1..])
  }

  // ---------------------------------------------------------------------
  // A reference definition on exponents: the count is 2^e and each key
  // press moves e by one step inside [0, 5].

  function Pow2(e: nat): nat
  {
    if e == 0 then 1 else 2 * Pow2(e - 1)
  }

  const MAX_EXPONENT: nat := 5

  function ExponentStep(e: nat, event: WindowEvent): nat
  {
    if IsPress(event, Left) then (if e >= 1 then e - 1 else e)
    else if IsPress(event, Right) then (if e < MAX_EXPONENT then e + 1 else e)
    else e
  }

  function ExponentAfter(e: nat, events: seq<WindowEvent>): nat
    decreases |events|
  {
    if events == [] then e else ExponentAfter(ExponentStep(e, events[0]), events[1..])
  }

  lemma SampleCountsArePowers(c: u32)
    ensures IsSampleCount(c) <==> exists e: nat :: e <= MAX_EXPONENT && c as int == Pow2(e)
  {
    assert Pow2(0) == 1 && Pow2(1) == 2 && Pow2(2) == 4 && Pow2(3) == 8 && Pow2(4) == 16 && Pow2(5) == 32;
    if IsSampleCount(c) {
      var e: nat := if c == 1 then 0 else if c == 2 then 1 else if c == 4 then 2
                    else if c == 8 then 3 else if c == 16 then 4 else 5;
      assert c as int == Pow2(e);
    } else {
      forall e: nat | e <= MAX_EXPONENT
        ensures c as int != Pow2(e)
      {
        assert e == 0 || e == 1 || e == 2 || e == 3 || e == 4 || e == 5;
      }
    }
  }

  /** One event on the count 2^e gives the count 2^(ExponentStep(e)). */
  lemma StepOnPowers(e: nat, event: WindowEvent)
    requires e <= MAX_EXPONENT
    ensures Pow2(e) < U32_MODULUS
    ensures Step(Pow2(e) as u32, event).sampleCount as int == Pow2(ExponentStep(e, event))
  {
  }

  /** Any sequence of key presses from 2^e gives 2^(ExponentAfter(e)), and
      the exponent never leaves [0, 5]. */
  lemma {:induction false} CountAfterOnPowers(e: nat, events: seq<WindowEvent>)
    requires e <= MAX_EXPONENT
    ensures Pow2(e) < U32_MODULUS
    ensures ExponentAfter(e, events) <= MAX_EXPONENT
    ensures CountAfter(Pow2(e) as u32, events) as int == Pow2(ExponentAfter(e, events))
    decreases |events|
  {
    StepOnPowers(e, if events == [] then OtherEvent(0) else events[0]);
    if events != [] {
      var e' := ExponentStep(e, events[0]);
      StepOnPowers(e', OtherEvent(0));
      CountAfterOnPowers(e', events[1..]);
    }
  }

  /** From the initial count 4, every sequence of events keeps the count in
      {1, 2, 4, 8, 16, 32}. */
  lemma ReachableCounts(events: seq<WindowEvent>)
    ensures IsSampleCount(CountAfter(INITIAL_SAMPLE_COUNT, events))
  {
    assert Pow2(2) == 4;
    CountAfterOnPowers(2, events);
    var e := ExponentAfter(2, events);
    assert e == 0 || e == 1 || e == 2 || e == 3 || e == 4 || e == 5;
  }

  /** Exactly the counts {1, 2, 4, 8, 16, 32} are reached: each is the count after
      some key presses from 4. */
  lemma {:induction false} EveryCountIsReachable(c: u32)
    requires IsSampleCount(c)
    ensures exists events :: CountAfter(INITIAL_SAMPLE_COUNT, events) == c
  {
    var left := KeyboardInputEvent(KeyboardInput(Pressed, Some(Left)));
    var right := KeyboardInputEvent(KeyboardInput(Pressed, Some(Right)));
    if c == 1 {
      assert CountAfter(INITIAL_SAMPLE_COUNT, [left, left]) == CountAfter(2, [left]) == CountAfter(1, []);
    } else if c == 2 {
      assert CountAfter(INITIAL_SAMPLE_COUNT, [left]) == CountAfter(2, []);
    } else if c == 4 {
      assert CountAfter(INITIAL_SAMPLE_COUNT, []) == 4;
    } else if c == 8 {
      assert CountAfter(INITIAL_SAMPLE_COUNT, [right]) == CountAfter(8, []);
    } else if c == 16 {
      assert CountAfter(INITIAL_SAMPLE_COUNT, [right, right]) == CountAfter(8, [right]) == CountAfter(16, []);
    } else {
      assert CountAfter(INITIAL_SAMPLE_COUNT, [right, right, right]) == CountAfter(8, [right, right])
          == CountAfter(16, [right]) == CountAfter(32, []);
    }
  }

  /** Several key presses between two frames coalesce into one rebuild: once
      set, the flag stays set, and it is set whenever the presses leave the
      count different from where it started. */
  lemma {:induction false} RebuildAfterIsSticky(count: u32, flag: bool, events: seq<WindowEvent>)
    ensures flag ==> RebuildAfter(count, flag, events)
    ensures IsSampleCount(count) && CountAfter(count, events) != count ==> RebuildAfter(count, flag, events)
    decreases |events|
  {
    if events != [] {
      var e := Step(count, events[0]);
      RebuildAfterIsSticky(e.sampleCount, flag || e.setsRebuild, events[1..]);
    }
  }
}
