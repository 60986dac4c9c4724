/** The hover-tracking container (`ui/widgets/hoverable.rs`): it follows
  * whether the mouse cursor is over itself and over its child, and submits an
  * action each time the combined "hovered" value changes. */
module Hover {

  /** The action submitted to the driver. */
  datatype HoverAction = HoverAction(childWidgetId: nat, hovered: bool)

  /** The updates the container reacts to; every other update is `OtherUpdate`. */
  datatype Update = HoveredChanged(hovered: bool) | ChildHoveredChanged(hovered: bool) | OtherUpdate

  /** The three flags, as a value. */
  datatype HoverState = HoverState(selfHovered: bool, childHovered: bool, effectiveHovered: bool)

  const Initial := HoverState(false, false, false)

  /** One update: the flag it names is set, and the effective value is
    * recomputed; an action is submitted only when that value changes. */
  function Step(s: HoverState, u: Update, child: nat): (r: (HoverState, seq<HoverAction>))
    ensures r.0.effectiveHovered == (r.0.selfHovered || r.0.childHovered) || u.OtherUpdate?
    ensures u.OtherUpdate? ==> r == (s, [])
    ensures |r.1| <= 1
    ensures r.1 != [] <==> !u.OtherUpdate? && r.0.effectiveHovered != s.effectiveHovered
    ensures r.1 != [] ==> r.1[0] == HoverAction(child, r.0.effectiveHovered)
    ensures u.HoveredChanged? ==> r.0.selfHovered == u.hovered && r.0.childHovered == s.childHovered
    ensures u.ChildHoveredChanged? ==> r.0.childHovered == u.hovered && r.0.selfHovered == s.selfHovered
  {
    var t := match u
      case HoveredChanged(h) => s.(selfHovered := h)
      case ChildHoveredChanged(h) => s.(childHovered := h)
      case OtherUpdate => s;
    if u.OtherUpdate? then (s, [])
    else
      var hovered := t.selfHovered || t.childHovered;
      if hovered != t.effectiveHovered then (t.(effectiveHovered := hovered), [HoverAction(child, hovered)])
      else (t, [])
  }

  /** A sequence of updates from state `s`: the final state and every action
    * submitted, in order. */
  function Run(s: HoverState, us: seq<Update>, child: nat): (HoverState, seq<HoverAction>)
    decreases |us|
  {
    if us == [] then (s, [])
    else
      var (t, a) := Step(s, us[0], child);
      var (u, b) := Run(t, us[1..], child);
      (u, a + b)
  }

  /** What the submitted actions look like after any sequence of updates:
    * each carries the child's id, no two in a row carry the same value, and
    * the last one carries the current effective value. */
  ghost predicate Alternating(start: bool, acts: seq<HoverAction>, child: nat, current: bool) {
    && (forall i :: 0 <= i < |acts| ==> acts[i].childWidgetId == child)
    && (|acts| > 0 ==> acts[0].hovered != start)
    && (forall i :: 0 < i < |acts| ==> acts[i].hovered != acts[i - 1].hovered)
    && (if acts == [] then current == start else acts[|acts| - 1].hovered == current)
  }

  /** Starting from a consistent state, any sequence of updates submits
    * alternating actions that end at the effective value, which stays equal
    * to "self or child hovered". */
  lemma {:induction false} RunAlternates(s: HoverState, us: seq<Update>, child: nat)
    requires s.effectiveHovered == (s.selfHovered || s.childHovered)
    ensures var (t, acts) := Run(s, us, child);
            && t.effectiveHovered == (t.selfHovered || t.childHovered)
            && Alternating(s.effectiveHovered, acts, child, t.effectiveHovered)
    decreases |us|
  {
    if us != [] {
      var (t, a) := Step(s, us[0], child);
      RunAlternates(t, us[1..], child);
      var (u, b) := Run(t, us[1..], child);
      assert Run(s, us, child) == (u, a + b);
      if a != [] {
        assert (a + b)[0] == a[0];
        forall i | 0 < i < |a + b|
          ensures (a + b)[i].hovered != (a + b)[i - 1].hovered
        {
          assert (a + b)[i] == b[i - 1];
          if i > 1 {
            assert (a + b)[i - 1] == b[i - 2];
          }
        }
      } else {
        assert a + b == b;
      }
    }
  }

  /** From a new container, the first action always reports "hovered". */
  lemma FirstActionIsEnter(us: seq<Update>, child: nat)
    requires Run(Initial, us, child).1 != []
    ensures Run(Initial, us, child).1[0] == HoverAction(child, true)
  {
    RunAlternates(Initial, us, child);
  }

  /** The container: its child's id, the three flags and the actions it has
    * submitted. */
  class Hoverable {
    const childWidgetId: nat
    var selfHovered: bool
    var childHovered: bool
    var effectiveHovered: bool
    var submitted: seq<HoverAction>

    function State(): HoverState
      reads this
    {
      HoverState(selfHovered, childHovered, effectiveHovered)
    }

    ghost predicate Valid()
      reads this
    {
      && effectiveHovered == (selfHovered || childHovered)
      && Alternating(false, submitted, childWidgetId, effectiveHovered)
    }

    /** `Hoverable::new`: nothing hovered, nothing submitted. */
    constructor (child: nat)
      ensures childWidgetId == child && State() == Initial && submitted == []
      ensures Valid()
    {
      childWidgetId := child;
      selfHovered, childHovered, effectiveHovered := false, false, false;
      submitted := [];
    }

    /** `update_hover_state`. */
    method UpdateHoverState()
      modifies this
      ensures selfHovered == old(selfHovered) && childHovered == old(childHovered)
      ensures effectiveHovered == (selfHovered || childHovered)
      ensures submitted == old(submitted)
                + (if effectiveHovered != old(effectiveHovered) then [HoverAction(childWidgetId, effectiveHovered)] else [])
    {
      var hovered := selfHovered || childHovered;
      if hovered != effectiveHovered {
        effectiveHovered := hovered;
        submitted := submitted + [HoverAction(childWidgetId, hovered)];
      }
    }

    /** `update`: the state and actions follow `Step`, and the consistency of
      * the flags and the alternation of actions are kept. */
    method Update(u: Update)
      requires Valid()
      modifies this
      ensures Valid()
      ensures State() == Step(old(State()), u, childWidgetId).0
      ensures submitted == old(submitted) + Step(old(State()), u, childWidgetId).1
    {
      match u {
        case HoveredChanged(h) =>
          selfHovered := h;
          UpdateHoverState();
        case ChildHoveredChanged(h) =>
          childHovered := h;
          UpdateHoverState();
        case OtherUpdate =>
          assert submitted == old(submitted) + [];
      }
      ghost var acts := submitted;
      if acts != old(submitted) {
        assert acts[|acts| - 1] == HoverAction(childWidgetId, effectiveHovered);
        if |old(submitted)| > 0 {
          assert acts[|acts| - 2] == old(submitted)[|old(submitted)| - 1];
        }
      }
    }
  }
}
