/**
 * The profile page's desktop: five icons each open one kind of floating
 * window, only the active kind is shown, and every opening hands out the
 * next value of a z-order counter that starts at 1000 and only grows.
 */
module OrkutProfile {
  import opened Basics
  import opened Text

  /** The window kinds the desktop icons open, in the order the page renders them. */
  const WindowTypes: seq<String> := ["profile", "friends", "communities", "scraps", "msn"]

  const InitialZIndex := 1000

  datatype Desktop = Desktop(activeWindow: Option<String>, maxZIndex: int)

  datatype Event = Open(windowType: String) | CloseActive

  const Initial := Desktop(None, InitialZIndex)

  /** `openWindow(t)` and the frame's close button (`closeWindow`). */
  function Next(d: Desktop, e: Event): (r: Desktop)
    ensures e.Open? ==> r.activeWindow == Some(e.windowType) && r.maxZIndex == d.maxZIndex + 1
    ensures e.CloseActive? ==> r.activeWindow == None && r.maxZIndex == d.maxZIndex
  {
    match e
    case Open(t) => Desktop(Some(t), d.maxZIndex + 1)
    case CloseActive => d.(activeWindow := None)
  }

  /** The state after a sequence of events. */
  function Replay(d: Desktop, es: seq<Event>): Desktop
    decreases |es|
  {
    if |es| == 0 then d else Replay(Next(d, es[0]), es[1..])
  }

  /** How many of the events open a window. */
  function Opens(es: seq<Event>): nat
  {
    if |es| == 0 then 0 else (if es[0].Open? then 1 else 0) + Opens(es[1..])
  }

  /** The counter counts the openings: it never decreases and grows by one per `openWindow`. */
  lemma {:induction false} ZIndexCountsOpens(d: Desktop, es: seq<Event>)
    ensures Replay(d, es).maxZIndex == d.maxZIndex + Opens(es)
    decreases |es|
  {
    if |es| > 0 {
      ZIndexCountsOpens(Next(d, es[0]), es[1..]);
    }
  }

  /** The active window after a sequence of events is the one opened last, unless a close came after it. */
  lemma {:induction false} ActiveIsLastOpened(d: Desktop, es: seq<Event>)
    requires |es| > 0
    ensures es[|es| - 1].Open? ==> Replay(d, es).activeWindow == Some(es[|es| - 1].windowType)
    ensures es[|es| - 1].CloseActive? ==> Replay(d, es).activeWindow == None
    decreases |es|
  {
    if |es| > 1 {
      ActiveIsLastOpened(Next(d, es[0]), es[1..]);
    }
  }

  function Is(active: Option<String>): String -> bool
  {
    (t: String) => active == Some(t)
  }

  /** The windows on screen: each of the five `activeWindow === t && <WindowFrame …>` blocks, in page order. */
  function Shown(active: Option<String>): (r: seq<String>)
  {
    Filter(WindowTypes, Is(active))
  }

  /** Of a list of distinct kinds, the filter for the active one keeps at most that kind. */
  lemma {:induction false} OnlyTheActiveKind(kinds: seq<String>, active: Option<String>)
    requires Distinct(kinds)
    ensures forall t :: t in Filter(kinds, Is(active)) <==> active == Some(t) && t in kinds
    ensures |Filter(kinds, Is(active))| <= 1
    ensures active.Some? && active.value in kinds ==> Filter(kinds, Is(active)) == [active.value]
    decreases |kinds|
  {
    FilterMembers(kinds, Is(active));
    if |kinds| > 0 {
      var tail := kinds[1..];
      assert Distinct(tail) by {
        forall i, j | 0 <= i < j < |tail| ensures tail[i] != tail[j] {
          assert tail[i] == kinds[i + 1] && tail[j] == kinds[j + 1];
        }
      }
      OnlyTheActiveKind(tail, active);
      if Is(active)(kinds[0]) {
        assert kinds[0] !in tail by {
          forall i | 0 <= i < |tail| ensures tail[i] != kinds[0] {
            assert tail[i] == kinds[i + 1];
          }
        }
        FilterKeepsNone(tail, Is(active));
      }
    }
  }

  /** At most one window is on screen, and it is the active one when that is one of the five kinds. */
  lemma ShownIsActive(active: Option<String>)
    ensures |Shown(active)| <= 1
    ensures forall t :: t in Shown(active) <==> active == Some(t) && t in WindowTypes
    ensures active.Some? && active.value in WindowTypes ==> Shown(active) == [active.value]
  {
    OnlyTheActiveKind(WindowTypes, active);
  }

  class Page {
    var activeWindow: Option<String>
    var maxZIndex: int

    function State(): Desktop
      reads this
    {
      Desktop(activeWindow, maxZIndex)
    }

    constructor ()
      ensures State() == Initial
    {
      activeWindow := None;
      maxZIndex := InitialZIndex;
    }

    /** `openWindow`: also when that window is already the active one. */
    method OpenWindow(windowType: String)
      modifies this
      ensures State() == Next(old(State()), Open(windowType))
    {
      activeWindow := Some(windowType);
      maxZIndex := maxZIndex + 1;
    }

    /** `closeWindow`: the z-order counter keeps its value. */
    method CloseWindow()
      modifies this
      ensures State() == Next(old(State()), CloseActive)
    {
      activeWindow := None;
    }
  }
}
