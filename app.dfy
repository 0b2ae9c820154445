/**
 * The terminal application: a running flag, the list of stacks it was
 * started with and the list's selection cursor, driven by key presses.
 * The pure functions give each step's effect on the state; the `App` class
 * holds the state the application updates in place and is proved against
 * them.
 */
module OwlApp {
  import opened Wrappers
  import opened CloudFormation
  import opened ListStates
  import opened Events

  /** The stacks shown and the selection cursor over them. */
  datatype StackList = StackList(stacks: seq<StackSummary>, state: ListState)

  /** The whole state of the application. */
  datatype AppState = AppState(running: bool, stackList: StackList)

  /** The arm of the key handler a key event takes. */
  datatype KeyAction = QuitApp | MoveDown | MoveUp | OpenLink | NoOp

  /**
   * The key handler's match, arms in order: Esc and 'q' quit whatever the
   * modifiers; 'c' and 'C' quit only when the modifiers are exactly CONTROL;
   * Down and Up move the cursor; Enter opens the console link; anything else
   * does nothing.
   */
  function Dispatch(key: KeyEvent): (r: KeyAction)
    ensures r == MoveDown <==> key.code == Down
    ensures r == MoveUp <==> key.code == Up
    ensures r == OpenLink <==> key.code == Enter
    ensures key.code.Other? ==> r == NoOp
  {
    match key.code
    case Esc => QuitApp
    case Char(c) =>
      if c == 'q' || (key.modifiers == ControlOnly && (c == 'c' || c == 'C')) then QuitApp
      else NoOp
    case Down => MoveDown
    case Up => MoveUp
    case Enter => OpenLink
    case Other(_) => NoOp
  }

  /**
   * What opening the console link needs: a selected index, within the list,
   * of a stack that has an id. Otherwise the application panics.
   */
  predicate LinkGuard(sl: StackList)
    ensures LinkGuard(sl) ==> sl.state.selected.Some? && sl.state.selected.value < |sl.stacks|
    ensures sl.stacks == [] ==> !LinkGuard(sl)
  {
    match sl.state.selected
    case None => false
    case Some(i) => i < |sl.stacks| && sl.stacks[i].stackId.Some?
  }

  /** The state after `quit`. */
  function Stopped(s: AppState): (r: AppState)
    ensures !r.running && r.stackList == s.stackList
  {
    s.(running := false)
  }

  /** The state after the key handler has run on `key`. */
  function ApplyKey(s: AppState, key: KeyEvent): (r: AppState)
    requires Dispatch(key) == OpenLink ==> LinkGuard(s.stackList)
    ensures r.stackList.stacks == s.stackList.stacks
    ensures r.running == (s.running && Dispatch(key) != QuitApp)
    ensures Dispatch(key) != MoveDown && Dispatch(key) != MoveUp ==> r.stackList == s.stackList
  {
    match Dispatch(key)
    case QuitApp => Stopped(s)
    case MoveDown => s.(stackList := s.stackList.(state := SelectNext(s.stackList.state)))
    case MoveUp => s.(stackList := s.stackList.(state := SelectPrevious(s.stackList.state)))
    case OpenLink => s
    case NoOp => s
  }

  /** The events that reach the key handler: key events of kind Press. */
  predicate IsKeyPress(ev: Event)
    ensures IsKeyPress(ev) ==> ev.Key?
    ensures ev.Key? && ev.key.kind != Press ==> !IsKeyPress(ev)
  {
    ev.Key? && ev.key.kind == Press
  }

  /** Handling `ev` in state `s` makes the application panic. */
  predicate Panics(s: AppState, ev: Event)
    ensures Panics(s, ev) <==>
      ev.Key? && ev.key.kind == Press && ev.key.code == Enter && !LinkGuard(s.stackList)
    ensures ev.Key? && ev.key.kind == Press && ev.key.code == Enter && s.stackList.state.selected.None?
      ==> Panics(s, ev)
  {
    IsKeyPress(ev) && Dispatch(ev.key) == OpenLink && !LinkGuard(s.stackList)
  }

  /** The state after one event has been handled. */
  function ApplyEvent(s: AppState, ev: Event): (r: AppState)
    requires !Panics(s, ev)
    ensures r.stackList.stacks == s.stackList.stacks
    ensures !IsKeyPress(ev) ==> r == s
    ensures IsKeyPress(ev) ==> r == ApplyKey(s, ev.key)
  {
    if IsKeyPress(ev) then ApplyKey(s, ev.key) else s
  }

  /** The state after a frame is drawn: only the list's cursor is affected. */
  function AfterRender(s: AppState): (r: AppState)
    ensures r.running == s.running && r.stackList.stacks == s.stackList.stacks
    ensures SelectsWithin(r.stackList.state, |r.stackList.stacks|)
  {
    s.(stackList := s.stackList.(state := Clamp(s.stackList.state, |s.stackList.stacks|)))
  }

  /** How the main loop ends. */
  datatype Outcome = Quitted | Panicked | EventsExhausted

  datatype RunResult = RunResult(state: AppState, consumed: nat, outcome: Outcome)

  /**
   * The main loop from state `s` over the events read from the terminal:
   * while running, draw a frame and handle the next event. When the events
   * run out, the result is the state the loop waits in, after the draw.
   */
  function RunLoop(s: AppState, events: seq<Event>): (r: RunResult)
    ensures r.consumed <= |events|
    ensures r.state.stackList.stacks == s.stackList.stacks
    decreases |events|
  {
    if !s.running then RunResult(s, 0, Quitted)
    else
      var drawn := AfterRender(s);
      if events == [] then RunResult(drawn, 0, EventsExhausted)
      else if Panics(drawn, events[0]) then RunResult(drawn, 1, Panicked)
      else
        var rest := RunLoop(ApplyEvent(drawn, events[0]), events[1..]);
        rest.(consumed := rest.consumed + 1)
  }

  /** The application. The stack list is borrowed and never replaced. */
  class App {
    var running: bool
    var stackList: StackList

    function State(): AppState
      reads this
    {
      AppState(running, stackList)
    }

    /** `App::new`: not running, nothing selected, the stacks as given. */
    constructor (stacks: seq<StackSummary>)
      ensures !running
      ensures stackList == StackList(stacks, DefaultListState)
    {
      running := false;
      stackList := StackList(stacks, DefaultListState);
    }

    /** Set running to false. */
    method Quit()
      modifies this
      ensures State() == Stopped(old(State()))
    {
      running := false;
    }

    /** The stack id the console link is built from; panics unless `LinkGuard` holds. */
    method GoToStackLink() returns (arn: string)
      requires LinkGuard(stackList)
      ensures stackList.state.selected.Some?
      ensures stackList.state.selected.value < |stackList.stacks|
      ensures stackList.stacks[stackList.state.selected.value].stackId == Some(arn)
    {
      var index := stackList.state.selected.value;
      arn := stackList.stacks[index].stackId.value;
    }

    /** The key handler. */
    method OnKeyEvent(key: KeyEvent)
      requires Dispatch(key) == OpenLink ==> LinkGuard(stackList)
      modifies this
      ensures State() == ApplyKey(old(State()), key)
    {
      match Dispatch(key)
      case QuitApp => Quit();
      case MoveDown => stackList := stackList.(state := SelectNext(stackList.state));
      case MoveUp => stackList := stackList.(state := SelectPrevious(stackList.state));
      case OpenLink => var _ := GoToStackLink();
      case NoOp =>
    }

    /** Pass key presses to the key handler and ignore every other event. */
    method HandleCrosstermEvents(ev: Event)
      requires !Panics(State(), ev)
      modifies this
      ensures State() == ApplyEvent(old(State()), ev)
    {
      match ev
      case Key(key) =>
        if key.kind == Press {
          OnKeyEvent(key);
        }
      case Mouse =>
      case Resize =>
      case _ =>
    }

    /** Draw a frame; of the drawing, only its effect on the list's cursor is modelled. */
    method Render()
      modifies this
      ensures State() == AfterRender(old(State()))
    {
      stackList := stackList.(state := Clamp(stackList.state, |stackList.stacks|));
    }

    /**
     * The main loop over the events the terminal delivers: set running, then
     * draw and handle one event per iteration until running is false. It
     * reports a panic where the key handler would panic, and stops when the
     * events run out.
     */
    method Run(events: seq<Event>) returns (outcome: Outcome, consumed: nat)
      modifies this
      ensures RunLoop(old(State()).(running := true), events) == RunResult(State(), consumed, outcome)
      ensures stackList.stacks == old(stackList.stacks)
      ensures running <==> outcome != Quitted
    {
      running := true;
      ghost var start := State();
      consumed := 0;
      while running
        invariant consumed <= |events|
        invariant stackList.stacks == start.stackList.stacks
        invariant var r := RunLoop(State(), events[consumed..]);
          RunLoop(start, events) == r.(consumed := r.consumed + consumed)
        decreases |events| - consumed, running
      {
        Render();
        if consumed == |events| {
          outcome := EventsExhausted;
          return;
        }
        var ev := events[consumed];
        assert events[consumed..][0] == ev && events[consumed..][1..] == events[consumed + 1..];
        if Panics(State(), ev) {
          outcome := Panicked;
          consumed := consumed + 1;
          return;
        }
        HandleCrosstermEvents(ev);
        consumed := consumed + 1;
      }
      outcome := Quitted;
    }
  }

  // ---------------------------------------------------------------------
  // Properties of the key handler
  // ---------------------------------------------------------------------

  /** Exactly Esc, 'q', and Ctrl+'c' / Ctrl+'C' with no other modifier quit. */
  lemma QuitKeys(key: KeyEvent)
    ensures Dispatch(key) == QuitApp <==>
      key.code == Esc || key.code == Char('q')
      || (key.modifiers == {Control} && (key.code == Char('c') || key.code == Char('C')))
  {
  }

  /** A 'c' without exactly CONTROL, e.g. with no modifier or with Control+Shift, does nothing. */
  lemma PlainCIgnored(s: AppState, key: KeyEvent)
    requires key.code == Char('c') || key.code == Char('C')
    requires key.modifiers != {Control}
    ensures Dispatch(key) == NoOp && ApplyKey(s, key) == s
  {
  }

  /** Quitting twice is quitting once. */
  lemma QuitIdempotent(s: AppState)
    ensures Stopped(Stopped(s)) == Stopped(s)
  {
  }

  /** Down and Up change the cursor only, as ratatui's `select_next` / `select_previous` do. */
  lemma MovesChangeOnlyCursor(s: AppState, key: KeyEvent)
    requires key.code == Down || key.code == Up
    ensures ApplyKey(s, key).running == s.running
    ensures ApplyKey(s, key).stackList.stacks == s.stackList.stacks
    ensures ApplyKey(s, key).stackList.state ==
      if key.code == Down then SelectNext(s.stackList.state) else SelectPrevious(s.stackList.state)
  {
  }

  /** Enter (past its guard) leaves the whole state as it was. */
  lemma EnterChangesNothing(s: AppState, key: KeyEvent)
    requires key.code == Enter && LinkGuard(s.stackList)
    ensures ApplyKey(s, key) == s
  {
  }

  /** Events other than key presses (releases, repeats, mouse, resize, focus, paste) change nothing. */
  lemma OnlyKeyPressesCount(s: AppState, ev: Event)
    requires !IsKeyPress(ev)
    ensures !Panics(s, ev) && ApplyEvent(s, ev) == s
  {
  }

  /**
   * Once a frame is drawn the index guard of Enter cannot fail on a list
   * with ids: Enter panics only when nothing is selected (or the selected
   * stack has no id).
   */
  lemma EnterAfterRender(s: AppState)
    ensures var d := AfterRender(s).stackList;
      (d.state.selected.Some? ==> d.state.selected.value < |d.stacks|)
      && (d.state.selected.None? <==> |s.stackList.stacks| == 0 || s.stackList.state.selected.None?)
  {
    ClampSelectsWithin(s.stackList.state, |s.stackList.stacks|);
  }

  // ---------------------------------------------------------------------
  // Properties of the main loop
  // ---------------------------------------------------------------------

  /**
   * The loop never touches the stack list, reads no more events than it is
   * given, and ends with running false exactly when it ended by quitting;
   * it stops early only by quitting or panicking.
   */
  lemma {:induction false} RunLoopEnds(s: AppState, events: seq<Event>)
    ensures var r := RunLoop(s, events);
      r.consumed <= |events|
      && r.state.stackList.stacks == s.stackList.stacks
      && (r.state.running <==> r.outcome != Quitted)
      && (r.outcome == EventsExhausted ==> r.consumed == |events|)
    decreases |events|
  {
    if s.running && events != [] {
      var drawn := AfterRender(s);
      if !Panics(drawn, events[0]) {
        RunLoopEnds(ApplyEvent(drawn, events[0]), events[1..]);
      }
    }
  }

  /** Once the loop has quit or panicked, later events are never read. */
  lemma {:induction false} RunLoopIgnoresLaterEvents(s: AppState, events: seq<Event>, later: seq<Event>)
    requires RunLoop(s, events).outcome != EventsExhausted
    ensures RunLoop(s, events + later) == RunLoop(s, events)
    decreases |events|
  {
    if s.running {
      assert events != [];
      var drawn := AfterRender(s);
      assert (events + later)[0] == events[0];
      if !Panics(drawn, events[0]) {
        assert (events + later)[1..] == events[1..] + later;
        RunLoopIgnoresLaterEvents(ApplyEvent(drawn, events[0]), events[1..], later);
      }
    }
  }

  /** A quit key pressed while running ends the loop after that one event. */
  lemma QuitKeyEndsLoop(s: AppState, key: KeyEvent, later: seq<Event>)
    requires s.running && key.kind == Press && Dispatch(key) == QuitApp
    ensures RunLoop(s, [Key(key)] + later) == RunResult(Stopped(AfterRender(s)), 1, Quitted)
  {
    var events := [Key(key)] + later;
    assert events[0] == Key(key) && events[1..] == later;
  }

  /** Enter as the first key after start-up panics: `App::new` selects nothing. */
  lemma EnterAtStartPanics(stacks: seq<StackSummary>, key: KeyEvent, later: seq<Event>)
    requires key.code == Enter && key.kind == Press
    ensures RunLoop(AppState(true, StackList(stacks, DefaultListState)), [Key(key)] + later).outcome == Panicked
  {
    var events := [Key(key)] + later;
    assert events[0] == Key(key);
  }
}
