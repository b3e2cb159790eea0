/** The SDL window's size and fullscreen bookkeeping: entering fullscreen
    remembers the windowed size and leaving restores it, and the resize event
    that SDL reports for a fullscreen switch is swallowed once. SDL itself is
    reduced to the handle it returns, the display mode it reports and a log
    of the calls made to it. */
module Windows {
  import opened VkTypes

  datatype Size = Size(x: nat, y: nat)

  /** The exception Create throws when SDL returns no window. */
  datatype WindowError = WindowCreationFailed

  /** The calls that change the window on the SDL side. */
  datatype WindowCall =
    | SetWindowSize(size: Size)
    | SetWindowFullscreen(fullscreen: bool)
    | SetWindowBordered(bordered: bool)
    | DestroyWindow

  /** The four fields the bookkeeping updates. */
  datatype WindowState = WindowState(
    size: Size,
    sizeBeforeFullscreen: Option<Size>,
    isFullscreen: bool,
    hasUpdatedFullscreen: bool)

  /** The member initialisers of Window.h. */
  const InitialWindowState := WindowState(Size(0, 0), None, false, false)

  /** A windowed size is remembered exactly while the window is fullscreen. */
  predicate Consistent(s: WindowState) {
    s.isFullscreen <==> s.sizeBeforeFullscreen.Some?
  }

  /** The bookkeeping of ToggleFullscreen; displaySize is the current display
      mode's size. */
  function Toggle(s: WindowState, displaySize: Size): (r: WindowState)
    requires Consistent(s)
    ensures Consistent(r)
    ensures r.isFullscreen == !s.isFullscreen && r.hasUpdatedFullscreen
    ensures s.isFullscreen ==> r.size == s.sizeBeforeFullscreen.value && r.sizeBeforeFullscreen == None
    ensures !s.isFullscreen ==> r.size == displaySize && r.sizeBeforeFullscreen == Some(s.size)
  {
    if s.isFullscreen then
      WindowState(s.sizeBeforeFullscreen.value, None, false, true)
    else
      WindowState(displaySize, Some(s.size), true, true)
  }

  /** The calls ToggleFullscreen makes: restore the size, leave fullscreen
      and show the border; or take the display's size, enter fullscreen and
      hide the border. */
  function ToggleCalls(s: WindowState, displaySize: Size): (r: seq<WindowCall>)
    requires Consistent(s)
    ensures |r| == 3 && r[0] == SetWindowSize(Toggle(s, displaySize).size)
    ensures r[1] == SetWindowFullscreen(!s.isFullscreen) && r[2] == SetWindowBordered(s.isFullscreen)
  {
    if s.isFullscreen then
      [SetWindowSize(s.sizeBeforeFullscreen.value), SetWindowFullscreen(false), SetWindowBordered(true)]
    else
      [SetWindowSize(displaySize), SetWindowFullscreen(true), SetWindowBordered(false)]
  }

  /** Two toggles bring the window back to the same fullscreen state and the
      same remembered size; starting windowed, also to the same size. */
  lemma ToggleTwice(s: WindowState, first: Size, second: Size)
    requires Consistent(s)
    ensures var r := Toggle(Toggle(s, first), second);
            && r.isFullscreen == s.isFullscreen
            && r.sizeBeforeFullscreen == s.sizeBeforeFullscreen
            && (!s.isFullscreen ==> r.size == s.size)
            && (s.isFullscreen ==> r.size == second)
            && r.hasUpdatedFullscreen
  {
  }

  /** The bookkeeping of ProcessResize: the first resize after a fullscreen
      switch is the switch's own and only clears the flag; any other resize
      records the new size. */
  function Resize(s: WindowState, newSize: Size): (r: WindowState)
    ensures !r.hasUpdatedFullscreen
    ensures r.isFullscreen == s.isFullscreen && r.sizeBeforeFullscreen == s.sizeBeforeFullscreen
    ensures r.size == (if s.hasUpdatedFullscreen then s.size else newSize)
  {
    if !s.hasUpdatedFullscreen then s.(size := newSize) else s.(hasUpdatedFullscreen := false)
  }

  /** Entering fullscreen and then receiving SDL's resize event keeps the
      display's size, and the next resize is recorded again. */
  lemma FullscreenResizeSwallowedOnce(s: WindowState, displaySize: Size, reported: Size, later: Size)
    requires Consistent(s)
    ensures Resize(Toggle(s, displaySize), reported).size == Toggle(s, displaySize).size
    ensures Resize(Resize(Toggle(s, displaySize), reported), later).size == later
  {
  }

  /** What can happen to a live window's bookkeeping. */
  datatype WindowEvent = ToggleEvent(displaySize: Size) | ResizeEvent(newSize: Size) | DestroyEvent

  /** The bookkeeping of Destroy on a live window. */
  function Destroyed(s: WindowState): (r: WindowState)
    ensures Consistent(r) && !r.isFullscreen && !r.hasUpdatedFullscreen
  {
    InitialWindowState
  }

  /** The bookkeeping after a history of events: from a consistent state
      (the initial one, say), whatever happens, the window is fullscreen
      exactly when it remembers a windowed size. */
  function Run(s: WindowState, events: seq<WindowEvent>): (r: WindowState)
    requires Consistent(s)
    ensures Consistent(r)
    decreases |events|
  {
    if |events| == 0 then s
    else
      var next := match events[0]
        case ToggleEvent(d) => Toggle(s, d)
        case ResizeEvent(n) => Resize(s, n)
        case DestroyEvent => Destroyed(s);
      Run(next, events[1..])
  }

  class Window {
    var handle: Handle
    var size: Size
    var sizeBeforeFullscreen: Option<Size>
    var isFullscreen: bool
    var hasUpdatedFullscreen: bool
    /** The calls made to SDL so far. */
    var calls: seq<WindowCall>

    function State(): WindowState
      reads this
    {
      WindowState(size, sizeBeforeFullscreen, isFullscreen, hasUpdatedFullscreen)
    }

    predicate Valid()
      reads this
    {
      Consistent(State())
    }

    /** Window() = default. */
    constructor()
      ensures Valid()
      ensures State() == InitialWindowState && handle == NullHandle && calls == []
    {
      handle := NullHandle;
      size := Size(0, 0);
      sizeBeforeFullscreen := None;
      isFullscreen := false;
      hasUpdatedFullscreen := false;
      calls := [];
    }

    /** Stores the handle SDL returned; fails on a null one. Otherwise records
        the requested size and switches to fullscreen when asked to. */
    method Create(requestedSize: Size, fullscreen: bool, createdHandle: Handle, displaySize: Size) returns (error: Option<WindowError>)
      requires Valid()
      modifies this
      ensures Valid()
      ensures handle == createdHandle
      ensures createdHandle == NullHandle ==> error == Some(WindowCreationFailed) && State() == old(State()) && calls == old(calls)
      ensures createdHandle != NullHandle && !fullscreen ==>
                error.None? && State() == old(State()).(size := requestedSize) && calls == old(calls)
      ensures createdHandle != NullHandle && fullscreen ==>
                && error.None?
                && State() == Toggle(old(State()).(size := requestedSize), displaySize)
                && calls == old(calls) + ToggleCalls(old(State()).(size := requestedSize), displaySize)
    {
      handle := createdHandle;
      if handle == NullHandle {
        return Some(WindowCreationFailed);
      }
      size := requestedSize;
      if fullscreen {
        ToggleFullscreen(displaySize);
      }
      return None;
    }

    /** Destroys a live window and resets the bookkeeping to its initial
        state; a window that was never created is left alone. */
    method Destroy()
      requires Valid()
      modifies this
      ensures Valid()
      ensures handle == NullHandle
      ensures old(handle) != NullHandle ==> State() == InitialWindowState && calls == old(calls) + [DestroyWindow]
      ensures old(handle) == NullHandle ==> State() == old(State()) && calls == old(calls)
    {
      if handle != NullHandle {
        calls := calls + [DestroyWindow];
        handle := NullHandle;
        size := Size(0, 0);
        sizeBeforeFullscreen := None;
        isFullscreen := false;
        hasUpdatedFullscreen := false;
      }
    }

    /** Switches between windowed and fullscreen mode; displaySize is what
        SDL reports as the current display mode. */
    method ToggleFullscreen(displaySize: Size)
      requires Valid()
      modifies this`size, this`sizeBeforeFullscreen, this`isFullscreen, this`hasUpdatedFullscreen, this`calls
      ensures Valid()
      ensures State() == Toggle(old(State()), displaySize)
      ensures calls == old(calls) + ToggleCalls(old(State()), displaySize)
    {
      if isFullscreen {
        calls := calls + [SetWindowSize(sizeBeforeFullscreen.value), SetWindowFullscreen(false), SetWindowBordered(true)];
        size := sizeBeforeFullscreen.value;
        sizeBeforeFullscreen := None;
        hasUpdatedFullscreen := true;
      } else {
        sizeBeforeFullscreen := Some(size);
        size := displaySize;
        calls := calls + [SetWindowSize(size), SetWindowFullscreen(true), SetWindowBordered(false)];
        hasUpdatedFullscreen := true;
      }
      isFullscreen := !isFullscreen;
    }

    /** Handles SDL's resize event. */
    method ProcessResize(newSize: Size)
      requires Valid()
      modifies this`size, this`hasUpdatedFullscreen
      ensures Valid()
      ensures State() == Resize(old(State()), newSize)
    {
      if !hasUpdatedFullscreen {
        size := newSize;
      } else {
        hasUpdatedFullscreen := false;
      }
    }

    /** Asks SDL for a new size and records it as a resize. */
    method ChangeSize(newSize: Size)
      requires Valid()
      modifies this`size, this`hasUpdatedFullscreen, this`calls
      ensures Valid()
      ensures State() == Resize(old(State()), newSize)
      ensures calls == old(calls) + [SetWindowSize(newSize)]
    {
      calls := calls + [SetWindowSize(newSize)];
      ProcessResize(newSize);
    }
  }
}
