/**
 * Input events and the default handler protocol of `src/input_handling/mod.rs`.
 *
 * The source has four event structs and, per event kind, a preview handler, a
 * bubble handler and a dispatch method. Here the four kinds form one `Event`
 * union, so a handler set is one preview and one bubble function over it; the
 * source's `on_key_preview` is `preview` applied to a `KeyInput`, and so on.
 *
 * A dispatch reports, besides whether the event was claimed, the sequence of
 * steps it invoked, so that "the bubble handler was not called" is a fact
 * about the result.
 */
module Input {
  import opened Geometry

  datatype ElementState = Pressed | Released

  /** Key and mouse-button identities are opaque codes of the windowing library. */
  datatype KeyEvent = KeyEvent(key: nat, state: ElementState)
  datatype MouseButtonEvent = MouseButtonEvent(button: nat, state: ElementState)
  datatype MouseWheelEvent = MouseWheelEvent(delta: Point)
  datatype CursorMovedEvent = CursorMovedEvent(pos: Point)

  datatype Event =
    | KeyInput(keyEvent: KeyEvent)
    | MouseButtonInput(buttonEvent: MouseButtonEvent)
    | MouseWheelInput(wheelEvent: MouseWheelEvent)
    | CursorMovedInput(cursorEvent: CursorMovedEvent)

  /** The accessors of the event structs hand back what the constructors were given. */
  lemma AccessorsReturnArguments(k: nat, b: nat, s: ElementState, d: Point, p: Point)
    ensures KeyEvent(k, s).key == k && KeyEvent(k, s).state == s
    ensures MouseButtonEvent(b, s).button == b && MouseButtonEvent(b, s).state == s
    ensures MouseWheelEvent(d).delta == d
    ensures CursorMovedEvent(p).pos == p
  {
  }

  /** A component's own handlers: `true` claims the event. */
  datatype Handlers = Handlers(preview: Event -> bool, bubble: Event -> bool)

  /** The trait defaults of `PreviewInputHandler` and `InputHandler`. */
  function DefaultHandlers(): (h: Handlers)
    ensures forall e :: !h.preview(e) && !h.bubble(e)
  {
    Handlers(e => false, e => false)
  }

  /** The outcome of a dispatch: whether the event was claimed, and the steps invoked, in order. */
  datatype Dispatched<S> = Dispatched(claimed: bool, invoked: seq<S>)

  /** A handler that ran and returned `claims`. */
  function Invoke<S>(step: S, claims: bool): Dispatched<S> { Dispatched(claims, [step]) }

  /** A step that did not run (an absent child, a failed gate). */
  function Skipped<S>(): Dispatched<S> { Dispatched(false, []) }

  /**
   * Rust's short-circuit `first || next`: `next` only runs, and only appears
   * in the invoked steps, when `first` did not claim the event.
   */
  function Then<S>(first: Dispatched<S>, next: Dispatched<S>): (r: Dispatched<S>)
    ensures r.claimed <==> first.claimed || next.claimed
    ensures first.claimed ==> r == first
  {
    if first.claimed then first else Dispatched(next.claimed, first.invoked + next.invoked)
  }

  /** `s0 || s1 || ... || sn`, right-nested as Rust parses it. */
  function ThenAll<S>(steps: seq<Dispatched<S>>): Dispatched<S>
  {
    if steps == [] then Skipped() else Then(steps[0], ThenAll(steps[1..]))
  }

  /** All invoked steps of `steps`, concatenated in order. */
  function Flatten<S>(steps: seq<Dispatched<S>>): seq<S>
  {
    if steps == [] then [] else steps[0].invoked + Flatten(steps[1..])
  }

  predicate NoneClaim<S>(steps: seq<Dispatched<S>>)
  {
    forall j :: 0 <= j < |steps| ==> !steps[j].claimed
  }

  /** `k` is the first step that claims the event. */
  predicate FirstClaim<S>(steps: seq<Dispatched<S>>, k: nat)
  {
    k < |steps| && steps[k].claimed && NoneClaim(steps[..k])
  }

  /** A chain stops at its first claiming step: exactly the steps up to it have run. */
  lemma {:induction false} ThenAllStopsAtFirstClaim<S>(steps: seq<Dispatched<S>>, k: nat)
    requires FirstClaim(steps, k)
    ensures ThenAll(steps) == Dispatched(true, Flatten(steps[..k + 1]))
  {
    if k == 0 {
      assert steps[..1] == [steps[0]];
      assert Flatten(steps[..1]) == steps[0].invoked + Flatten(steps[..1][1..]);
      assert steps[..1][1..] == [];
    } else {
      assert !steps[..k][0].claimed;
      var rest := steps[1..];
      assert rest[..k - 1] == steps[1..k];
      ThenAllStopsAtFirstClaim(rest, k - 1);
      assert steps[..k + 1][1..] == rest[..k];
    }
  }

  /** When no step claims the event, every step runs and the event is not claimed. */
  lemma {:induction false} ThenAllNoClaim<S>(steps: seq<Dispatched<S>>)
    requires NoneClaim(steps)
    ensures ThenAll(steps) == Dispatched(false, Flatten(steps))
  {
    if steps != [] {
      assert !steps[0].claimed;
      assert NoneClaim(steps[1..]) by {
        forall j | 0 <= j < |steps| - 1 ensures !steps[1..][j].claimed {
          assert steps[1..][j] == steps[j + 1];
        }
      }
      ThenAllNoClaim(steps[1..]);
    }
  }

  /** The two phases of a component's own handling. */
  datatype Phase = PreviewPhase | BubblePhase

  /**
   * `DispatchInput`'s default `dispatch_*`: preview, then bubble only if the
   * preview declined. No position gate, not even for cursor moves.
   */
  function DefaultDispatch(h: Handlers, e: Event): (r: Dispatched<Phase>)
    ensures r.claimed <==> h.preview(e) || h.bubble(e)
    ensures |r.invoked| >= 1 && r.invoked[0] == PreviewPhase
    ensures BubblePhase in r.invoked <==> !h.preview(e)
  {
    Then(Invoke(PreviewPhase, h.preview(e)), Invoke(BubblePhase, h.bubble(e)))
  }

  /** A type that keeps every default handler claims no event, whatever its kind or position. */
  lemma DefaultsClaimNothing(e: Event)
    ensures DefaultDispatch(DefaultHandlers(), e) == Dispatched(false, [PreviewPhase, BubblePhase])
  {
  }
}
