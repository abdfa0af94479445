/**
 * The scroll handler both navigation bars install (components/navbar.tsx and
 * src/components/navbar.tsx carry the same code): after every scroll event the
 * bar knows whether the page is scrolled past 50 px, hides itself while the
 * user scrolls down below the first 100 px, and remembers the position.
 */
module NavScroll {

  /** The three state fields `scrolled`, `hidden` and `lastScrollY`. */
  datatype ScrollState = ScrollState(scrolled: bool, hidden: bool, lastScrollY: real)

  const Initial: ScrollState := ScrollState(false, false, 0.0)

  /** `handleScroll` for the position `y` (`window.scrollY`). */
  function OnScroll(s: ScrollState, y: real): (r: ScrollState)
    ensures r.lastScrollY == y
    ensures r.hidden ==> r.scrolled
    ensures y <= 100.0 || y <= s.lastScrollY ==> !r.hidden
    ensures r.scrolled <==> y > 50.0
    ensures r.hidden <==> y > s.lastScrollY && y > 100.0
  {
    ScrollState(y > 50.0, y > s.lastScrollY && y > 100.0, y)
  }

  /** The state after the events `ys`, in order. */
  function OnScrolls(s: ScrollState, ys: seq<real>): ScrollState
    decreases |ys|
  {
    if ys == [] then s else OnScrolls(OnScroll(s, ys[0]), ys[1..])
  }

  /** After at least two events the bar depends only on the last two
      positions: scrolled iff the last is past 50, hidden iff the last moved
      down and is past 100, and the last is remembered. */
  lemma {:induction false} LastTwoDecide(s: ScrollState, ys: seq<real>)
    requires |ys| >= 2
    ensures var r := OnScrolls(s, ys);
      var y, prev := ys[|ys| - 1], ys[|ys| - 2];
      && (r.scrolled <==> y > 50.0)
      && (r.hidden <==> y > prev && y > 100.0)
      && r.lastScrollY == y
    decreases |ys|
  {
    if |ys| == 2 {
      var s1 := OnScroll(s, ys[0]);
      assert ys[1..] == [ys[1]] && [ys[1]][1..] == [];
      assert OnScrolls(s1, [ys[1]]) == OnScrolls(OnScroll(s1, ys[1]), []);
    } else {
      LastTwoDecide(OnScroll(s, ys[0]), ys[1..]);
      assert ys[1..][|ys| - 2] == ys[|ys| - 1] && ys[1..][|ys| - 3] == ys[|ys| - 2];
    }
  }

  /** Starting from the top of the page, a single event hides the bar iff it
      lands below 100 px (any such move is downwards). */
  lemma FirstEvent(y: real)
    ensures OnScroll(Initial, y).hidden <==> y > 100.0
    ensures OnScroll(Initial, y).scrolled <==> y > 50.0
  {
  }
}
