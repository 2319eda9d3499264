/**
 * The scissor stack of `DrawingContext` in `src/drawing/mod.rs`.
 *
 * The context starts with the initial scissor on its stack. Pushing a rect
 * makes it the render pass's scissor and puts it on the stack; popping
 * removes the top and makes the new top the render pass's scissor again.
 * Popping the last scissor leaves `last()` with nothing to return, and the
 * `unwrap` panics. The render pass is reduced to the one thing the stack
 * drives: the scissor rect it was last given.
 */
module Drawing {
  import opened Wrappers
  import opened Geometry

  /** The failure of `pop_scissor`: the unwrap of an empty stack's `last()`. */
  datatype ScissorError = EmptyScissorStack

  /** The stack after a pop; none is left when the stack had at most one scissor. */
  function Popped(stack: seq<Rect>): (r: Result<seq<Rect>, ScissorError>)
    ensures r.Ok? <==> |stack| >= 2
    ensures r.Ok? ==> |r.value| >= 1 && r.value + [stack[|stack| - 1]] == stack
  {
    if |stack| >= 2 then Ok(stack[..|stack| - 1]) else Err(EmptyScissorStack)
  }

  /** Pushing and then popping gives back the stack pushed onto, whatever it held. */
  lemma PushThenPop(stack: seq<Rect>, r: Rect)
    requires |stack| >= 1
    ensures Popped(stack + [r]) == Ok(stack)
  {
    assert (stack + [r])[..|stack|] == stack;
  }

  class DrawingContext {
    var scissorStack: seq<Rect>
    /** The scissor rect last set on the render pass, if the context has set one. */
    var activeScissor: Option<Rect>

    /** The stack is never empty. */
    ghost predicate Valid()
      reads this
    {
      |scissorStack| >= 1
    }

    /** `DrawingContext::new`: the stack holds the initial scissor; the render pass is not touched. */
    constructor New(initialScissor: Rect)
      ensures Valid()
      ensures scissorStack == [initialScissor] && activeScissor == None
    {
      scissorStack := [initialScissor];
      activeScissor := None;
    }

    /** `push_scissor`. */
    method PushScissor(rect: Rect)
      requires Valid()
      modifies this
      ensures Valid()
      ensures scissorStack == old(scissorStack) + [rect]
      ensures activeScissor == Some(rect)
    {
      activeScissor := Some(rect);
      scissorStack := scissorStack + [rect];
    }

    /**
     * `pop_scissor`: on success the new top is set on the render pass again;
     * when the stack held only one scissor the pop leaves it empty and the
     * following unwrap fails.
     */
    method PopScissor() returns (r: Result<(), ScissorError>)
      requires Valid()
      modifies this
      ensures r.Ok? <==> |old(scissorStack)| >= 2
      ensures r.Ok? ==> Popped(old(scissorStack)) == Ok(scissorStack) && Valid() &&
                        activeScissor == Some(scissorStack[|scissorStack| - 1])
      ensures r.Err? ==> r == Err(EmptyScissorStack) && scissorStack == [] && activeScissor == old(activeScissor)
    {
      scissorStack := scissorStack[..|scissorStack| - 1];
      if |scissorStack| == 0 {
        return Err(EmptyScissorStack);
      }
      activeScissor := Some(scissorStack[|scissorStack| - 1]);
      r := Ok(());
    }
  }

  /**
   * Pushing a scissor and popping it again restores the stack, and the
   * render pass is left with the scissor that was on top before.
   */
  method PushPopRestores(ctx: DrawingContext, rect: Rect) returns (r: Result<(), ScissorError>)
    requires ctx.Valid()
    modifies ctx
    ensures r.Ok? && ctx.Valid()
    ensures ctx.scissorStack == old(ctx.scissorStack)
    ensures ctx.activeScissor == Some(old(ctx.scissorStack)[|old(ctx.scissorStack)| - 1])
  {
    ctx.PushScissor(rect);
    r := ctx.PopScissor();
    PushThenPop(old(ctx.scissorStack), rect);
  }

  /** A fresh context cannot pop: its only scissor is the initial one. */
  method FreshContextCannotPop(initial: Rect) returns (r: Result<(), ScissorError>)
    ensures r == Err(EmptyScissorStack)
  {
    var ctx := new DrawingContext.New(initial);
    r := ctx.PopScissor();
  }
}
