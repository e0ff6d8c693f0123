/**
  GLActivity (camera.preview): swipes step the renderer's filter index. The
  index lives in the low nibble of the renderer's parameter word, and the
  renderer reports the number of filters it has in bits 4..7 of that word.

  The renderer's getVideoParameters answer is a parameter of each swipe; the
  dialog, the activity start and setVideoParameters are recorded as events.
*/
module Activity {
  import opened Wrappers

  datatype SwipeDirection = SwipeUp | SwipeDown | SwipeLeft | SwipeRight

  /** What a swipe asks of the UI and of the renderer. */
  datatype ActivityEvent =
    | ShowResolutionDialog
    | StartVKActivity
    | SetVideoParameters(params: bv32)

  /** The largest filter index the activity reaches: maxFilter is at most 15 and the index stays below maxFilter - 1. */
  const MaxFilterIndex := 14

  /** A filter index as a parameter word. */
  function Nibble(filter: int): bv32
    requires 0 <= filter < 16
  {
    filter as bv32
  }

  /** Bits 0..3 of a parameter word. */
  function LowNibble(params: bv32): bv32
  {
    params & 0xF
  }

  /** Bits 4..31 of a parameter word. */
  function UpperBits(params: bv32): bv32
  {
    params & 0xFFFF_FFF0
  }

  /** (params & 0xFFFFFFF0) | filter: the filter index goes into the low nibble. */
  function WithFilter(params: bv32, filter: int): (r: bv32)
    requires 0 <= filter < 16
    ensures LowNibble(r) == Nibble(filter)
    ensures UpperBits(r) == UpperBits(params)
  {
    UpperBits(params) | Nibble(filter)
  }

  /** A word is determined by its low nibble and its upper 28 bits. */
  lemma WordOfNibbles(a: bv32, b: bv32)
    requires LowNibble(a) == LowNibble(b) && UpperBits(a) == UpperBits(b)
    ensures a == b
  {
  }

  /** (params & 0xF0) >>> 4: the number of filters the renderer offers. */
  function MaxFilter(params: bv32): (n: int)
    ensures 0 <= n < 16
    ensures n as bv32 << 4 == params & 0xF0
  {
    ((params & 0xF0) >> 4) as int
  }

  /** mFilter and mParams. */
  datatype SwipeState = SwipeState(filter: int, params: bv32)

  predicate InRange(st: SwipeState)
  {
    0 <= st.filter <= MaxFilterIndex
  }

  /**
    onSwipe on mFilter and mParams, given what getVideoParameters would
    answer: up shows the resolution dialog, down does nothing; right steps
    the filter down and writes it, or at filter 0 starts the Vulkan activity;
    left reloads the parameters and steps the filter up while it is below
    maxFilter - 1.
  */
  function Swipe(st: SwipeState, direction: SwipeDirection, rendererParams: bv32): (SwipeState, Option<ActivityEvent>)
    requires InRange(st)
  {
    match direction
    case SwipeUp => (st, Some(ShowResolutionDialog))
    case SwipeDown => (st, None)
    case SwipeRight =>
      if st.filter > 0 then
        var params := WithFilter(st.params, st.filter - 1);
        (SwipeState(st.filter - 1, params), Some(SetVideoParameters(params)))
      else
        (st, Some(StartVKActivity))
    case SwipeLeft =>
      if st.filter < MaxFilter(rendererParams) - 1 then
        var params := WithFilter(rendererParams, st.filter + 1);
        (SwipeState(st.filter + 1, params), Some(SetVideoParameters(params)))
      else
        (SwipeState(st.filter, rendererParams), None)
  }

  /** Every swipe keeps the index in [0, 14] and moves it by at most one. */
  lemma {:induction false} SwipeInRange(st: SwipeState, direction: SwipeDirection, rendererParams: bv32)
    requires InRange(st)
    ensures InRange(Swipe(st, direction, rendererParams).0)
    ensures -1 <= Swipe(st, direction, rendererParams).0.filter - st.filter <= 1
  {
    if direction == SwipeLeft && st.filter < MaxFilter(rendererParams) - 1 {
      assert st.filter + 1 <= MaxFilterIndex;
    }
  }

  /**
    Every parameter word a swipe writes is the new state's word, holding the
    new index in its low nibble over the upper bits of the word it was built
    from: the old word for a right swipe, the renderer's for a left one.
  */
  lemma {:induction false} SwipeWrites(st: SwipeState, direction: SwipeDirection, rendererParams: bv32)
    requires InRange(st)
    ensures Swipe(st, direction, rendererParams).1.Some? && Swipe(st, direction, rendererParams).1.value.SetVideoParameters? ==>
            var (st', e) := Swipe(st, direction, rendererParams);
            e.value.params == st'.params &&
            LowNibble(st'.params) == Nibble(st'.filter) &&
            UpperBits(st'.params) == UpperBits(if direction == SwipeRight then st.params else rendererParams)
  {
    match direction {
      case SwipeUp =>
      case SwipeDown =>
      case SwipeRight =>
        if st.filter > 0 {
          var p := WithFilter(st.params, st.filter - 1);
          assert Swipe(st, direction, rendererParams) == (SwipeState(st.filter - 1, p), Some(SetVideoParameters(p)));
        }
      case SwipeLeft =>
        if st.filter < MaxFilter(rendererParams) - 1 {
          var p := WithFilter(rendererParams, st.filter + 1);
          assert Swipe(st, direction, rendererParams) == (SwipeState(st.filter + 1, p), Some(SetVideoParameters(p)));
        }
    }
  }

  /**
    Right: above 0 the index goes down by exactly one and is written; at 0 the
    state is unchanged and the Vulkan activity starts. Left: the index goes up
    by one exactly when it is below maxFilter - 1, and the parameters are the
    renderer's either way. Up and down change nothing.
  */
  lemma {:induction false} SwipeSteps(st: SwipeState, direction: SwipeDirection, rendererParams: bv32)
    requires InRange(st)
    ensures direction == SwipeRight && st.filter > 0 ==>
            Swipe(st, direction, rendererParams).0.filter == st.filter - 1 &&
            Swipe(st, direction, rendererParams).1 == Some(SetVideoParameters(Swipe(st, direction, rendererParams).0.params))
    ensures direction == SwipeRight && st.filter == 0 ==>
            Swipe(st, direction, rendererParams) == (st, Some(StartVKActivity))
    ensures direction == SwipeLeft ==>
            (Swipe(st, direction, rendererParams).0.filter == st.filter + 1 <==> st.filter < MaxFilter(rendererParams) - 1) &&
            (Swipe(st, direction, rendererParams).0.filter != st.filter + 1 ==>
               Swipe(st, direction, rendererParams).0 == SwipeState(st.filter, rendererParams))
    ensures direction == SwipeUp || direction == SwipeDown ==> Swipe(st, direction, rendererParams).0 == st
  {
  }

  /** A left swipe that stepped the index up is undone by a right swipe, over the renderer's upper bits. */
  lemma {:induction false} RightUndoesLeft(st: SwipeState, rendererParams: bv32)
    requires InRange(st) && st.filter < MaxFilter(rendererParams) - 1
    ensures InRange(Swipe(st, SwipeLeft, rendererParams).0)
    ensures var st' := Swipe(Swipe(st, SwipeLeft, rendererParams).0, SwipeRight, rendererParams).0;
            st'.filter == st.filter && st'.params == WithFilter(rendererParams, st.filter)
  {
    SwipeInRange(st, SwipeLeft, rendererParams);
    var left := Swipe(st, SwipeLeft, rendererParams).0;
    assert left.params == WithFilter(rendererParams, st.filter + 1);
    var p := WithFilter(left.params, st.filter);
    WordOfNibbles(p, WithFilter(rendererParams, st.filter));
  }

  /** The state after a run of swipes, the i-th answered by rendererParams[i]: the index never leaves [0, 14]. */
  function Swipes(st: SwipeState, directions: seq<SwipeDirection>, rendererParams: seq<bv32>): (r: SwipeState)
    requires InRange(st) && |directions| == |rendererParams|
    ensures InRange(r)
    decreases |directions|
  {
    if directions == [] then st
    else
      SwipeInRange(st, directions[0], rendererParams[0]);
      Swipes(Swipe(st, directions[0], rendererParams[0]).0, directions[1..], rendererParams[1..])
  }

  class GLActivity {
    var filter: int
    var params: bv32
    ghost var events: seq<ActivityEvent>

    ghost predicate Valid()
      reads this
    {
      InRange(State())
    }

    function State(): SwipeState
      reads this
    {
      SwipeState(filter, params)
    }

    /** mFilter starts at 0, and mParams at the int field default 0. */
    constructor()
      ensures Valid() && filter == 0 && params == 0 && events == []
    {
      filter, params := 0, 0;
      events := [];
    }

    /** onSwipe: one step of Swipe on the fields, with its call recorded. */
    method OnSwipe(direction: SwipeDirection, rendererParams: bv32)
      requires Valid()
      modifies this
      ensures Valid()
      ensures State() == Swipe(old(State()), direction, rendererParams).0
      ensures var e := Swipe(old(State()), direction, rendererParams).1;
              events == old(events) + (if e.Some? then [e.value] else [])
    {
      SwipeInRange(State(), direction, rendererParams);
      match direction {
        case SwipeUp =>
          events := events + [ShowResolutionDialog];
        case SwipeDown =>
        case SwipeRight =>
          if filter > 0 {
            filter := filter - 1;
            params := WithFilter(params, filter);
            events := events + [SetVideoParameters(params)];
          } else {
            events := events + [StartVKActivity];
          }
        case SwipeLeft =>
          params := rendererParams;
          var maxFilter := MaxFilter(params);
          if filter < maxFilter - 1 {
            filter := filter + 1;
            params := WithFilter(params, filter);
            events := events + [SetVideoParameters(params)];
          }
      }
    }
  }
}
