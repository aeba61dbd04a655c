// QStereoWindow<T> (src/qstereowindow.h): a QWindow that drives its renderer by
// posting itself UpdateRequest events. One "request pending" flag coalesces
// repaint requests; each handled request paints a frame and asks for the next.
// The Qt event queue is reduced to the number of posted requests not yet
// delivered, and the calls the window makes are recorded in order.
module StereoWindow {

  datatype WindowCall =
    | PostUpdateRequest    // QCoreApplication::postEvent(this, UpdateRequest)
    | RendererInitialize   // _renderer->initialize(*this)
    | RendererApply        // _renderer->apply()
    | SwapBuffers          // _context.swapBuffers(this)

  /** What `paintGL` does: apply once, and swap unless the renderer swaps itself. */
  function PaintCalls(autoSwapsBuffers: bool): (calls: seq<WindowCall>)
    ensures multiset(calls)[RendererApply] == 1
    ensures SwapBuffers in calls <==> !autoSwapsBuffers
    ensures calls[0] == RendererApply && RendererInitialize !in calls && PostUpdateRequest !in calls
    ensures |calls| == if autoSwapsBuffers then 1 else 2
  {
    [RendererApply] + if autoSwapsBuffers then [] else [SwapBuffers]
  }

  class Window {
    /** `_renderer->autoSwapsBuffers()`. */
    const autoSwapsBuffers: bool
    var updateRequestPending: bool
    /** `_context.isValid()`. */
    var contextValid: bool
    /** UpdateRequest events posted and not yet delivered. */
    var queuedRequests: nat
    var calls: seq<WindowCall>

    /**
     * At most one update request is ever outstanding, an outstanding request is
     * always marked pending, and the renderer has been initialised exactly once
     * if the context is valid and never otherwise.
     */
    ghost predicate Valid()
      reads this
    {
      queuedRequests <= 1
      && (queuedRequests == 1 ==> updateRequestPending)
      && multiset(calls)[RendererInitialize] == (if contextValid then 1 else 0)
    }

    /**
     * A pending request with nothing queued: no event will ever clear the flag,
     * and `updateGL` will never post again.
     */
    predicate Stalled()
      reads this
    {
      updateRequestPending && queuedRequests == 0
    }

    /** A new window: no request pending, no context, nothing called. */
    constructor (autoSwapsBuffers: bool)
      ensures Valid()
      ensures this.autoSwapsBuffers == autoSwapsBuffers
      ensures !updateRequestPending && !contextValid && queuedRequests == 0 && calls == []
    {
      this.autoSwapsBuffers := autoSwapsBuffers;
      updateRequestPending, contextValid := false, false;
      queuedRequests, calls := 0, [];
    }

    /**
     * `updateGL`: posts a request only when none is pending, and marks it
     * pending; otherwise it does nothing.
     */
    method UpdateGL()
      requires Valid()
      modifies this`updateRequestPending, this`queuedRequests, this`calls
      ensures Valid() && updateRequestPending
      ensures old(updateRequestPending) ==>
                queuedRequests == old(queuedRequests) && calls == old(calls)
      ensures !old(updateRequestPending) ==>
                queuedRequests == 1 && calls == old(calls) + [PostUpdateRequest]
      ensures old(Stalled()) ==> Stalled() && calls == old(calls)
    {
      if !updateRequestPending {
        updateRequestPending := true;
        queuedRequests := queuedRequests + 1;
        calls := calls + [PostUpdateRequest];
      }
    }

    /** `paintGL`. */
    method PaintGL()
      requires Valid()
      modifies this`calls
      ensures Valid()
      ensures calls == old(calls) + PaintCalls(autoSwapsBuffers)
    {
      calls := calls + [RendererApply];
      if !autoSwapsBuffers {
        calls := calls + [SwapBuffers];
      }
    }

    /**
     * `event`: delivering an UpdateRequest takes one posted request off the
     * queue. When a request is pending and the context can be made current, the
     * flag is cleared, a frame is painted and the next request is posted, so a
     * request is pending and queued again. Otherwise nothing is painted and the
     * flag is unchanged. `makeCurrent` is only attempted in the first case, so
     * its outcome matters only there. The render loop therefore rests on
     * `makeCurrent`: when the one queued request is delivered and the context
     * cannot be made current, the window is left stalled, and from a stalled
     * window no further event, nor `updateGL`, posts, paints or clears the flag
     * until the context can be made current for an UpdateRequest, which no
     * longer arrives.
     */
    method Event(isUpdateRequest: bool, makeCurrentSucceeds: bool)
      requires Valid()
      modifies this`updateRequestPending, this`queuedRequests, this`calls
      ensures Valid()
      ensures isUpdateRequest && old(updateRequestPending) && makeCurrentSucceeds ==>
                updateRequestPending && queuedRequests == 1
                && calls == old(calls) + PaintCalls(autoSwapsBuffers) + [PostUpdateRequest]
      ensures !(isUpdateRequest && old(updateRequestPending) && makeCurrentSucceeds) ==>
                updateRequestPending == old(updateRequestPending) && calls == old(calls)
      ensures queuedRequests == (if isUpdateRequest && old(updateRequestPending) && makeCurrentSucceeds then 1
                                 else if isUpdateRequest && old(queuedRequests) > 0 then old(queuedRequests) - 1
                                 else old(queuedRequests))
      ensures isUpdateRequest && old(queuedRequests) == 1 && !makeCurrentSucceeds ==> Stalled()
      ensures old(Stalled()) && !makeCurrentSucceeds ==> Stalled() && calls == old(calls)
    {
      if isUpdateRequest && queuedRequests > 0 {
        queuedRequests := queuedRequests - 1;
      }
      if isUpdateRequest && updateRequestPending && makeCurrentSucceeds {
        updateRequestPending := false;
        PaintGL();
        UpdateGL();
      }
    }

    /**
     * `exposeEvent`: the first exposure while the context is invalid creates the
     * context, initialises the renderer once and asks for the first frame.
     * Failing to create the context or make it current is fatal, so the caller
     * must guarantee both in that case. Any other exposure changes nothing.
     */
    method ExposeEvent(isExposed: bool, createSucceeds: bool, makeCurrentSucceeds: bool)
      requires Valid()
      requires isExposed && !contextValid ==> createSucceeds && makeCurrentSucceeds
      modifies this`contextValid, this`updateRequestPending, this`queuedRequests, this`calls
      ensures Valid()
      ensures isExposed && !old(contextValid) ==>
                contextValid && updateRequestPending
                && calls == old(calls) + [RendererInitialize]
                            + (if old(updateRequestPending) then [] else [PostUpdateRequest])
      ensures !(isExposed && !old(contextValid)) ==>
                contextValid == old(contextValid) && updateRequestPending == old(updateRequestPending)
                && queuedRequests == old(queuedRequests) && calls == old(calls)
    {
      if isExposed && !contextValid {
        contextValid := true;
        calls := calls + [RendererInitialize];
        UpdateGL();
      }
    }
  }
}
