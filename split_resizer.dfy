/** `SplitResizerComponent` as a class whose handlers update its fields in
    place. Each handler is proved to move the fields exactly as the matching
    function of ResizerModel moves a ResizerState. */
module SplitResizer {
  import opened Wrappers
  import M = ResizerModel

  class SplitResizerComponent {
    var isDragging: bool
    var startX: real
    var startLeftWidth: real
    var leftPanel: Option<M.Panel>
    var rightPanel: Option<M.Panel>
    var rafId: Option<nat>
    /** Document `mousemove`/`mouseup` handler pairs registered so far. */
    var listeners: nat
    /** Events emitted on `resizeStart`, `resizing` and `resizeEnd`, oldest first. */
    var emitted: seq<M.Event>

    function State(): M.ResizerState
      reads this
    {
      M.ResizerState(isDragging, startX, startLeftWidth, leftPanel, rightPanel, rafId, listeners, emitted)
    }

    ghost predicate Valid()
      reads this
    {
      M.Consistent(State())
    }

    constructor ()
      ensures Valid() && State() == M.Initial()
    {
      isDragging := false;
      startX, startLeftWidth := 0.0, 0.0;
      leftPanel, rightPanel := None, None;
      rafId := None;
      listeners := 0;
      emitted := [];
    }

    /** `ngAfterViewInit`: record the sibling panels found under the parent. */
    method NgAfterViewInit(parent: Option<M.Siblings>)
      requires Valid()
      modifies this
      ensures Valid() && State() == M.AfterViewInit(old(State()), parent)
    {
      if parent.Some? {
        leftPanel := parent.value.left;
        rightPanel := parent.value.right;
      }
    }

    method OnMouseDown(clientX: real)
      requires Valid()
      modifies this
      ensures Valid() && State() == M.MouseDown(old(State()), clientX)
    {
      isDragging := true;
      startX := clientX;
      if leftPanel.Some? {
        startLeftWidth := leftPanel.value.width;
      }
      emitted := emitted + [M.ResizeStart];
      listeners := listeners + 1;
    }

    /** One `mousemove` handler; `frame` is the id `requestAnimationFrame`
        would return. */
    method OnMouseMove(clientX: real, innerWidth: real, frame: nat)
      requires Valid()
      modifies this
      ensures Valid() && State() == M.MouseMove(old(State()), clientX, innerWidth, frame)
    {
      if !isDragging {
        return;
      }
      var deltaX := clientX - startX;
      var newLeftWidth := startLeftWidth + deltaX;
      var constrainedWidth := M.Clamp(newLeftWidth, innerWidth);
      if leftPanel.Some? {
        leftPanel := Some(M.Panel(constrainedWidth, M.FlexNone));
      }
      if rightPanel.Some? {
        rightPanel := Some(rightPanel.value.(flex := M.FlexGrow));
      }
      if rafId.None? {
        rafId := Some(frame);
      }
    }

    /** The frame callback requested by `OnMouseMove`. */
    method OnAnimationFrame()
      requires Valid() && rafId.Some?
      modifies this
      ensures Valid() && State() == M.FrameCallback(old(State()))
    {
      emitted := emitted + [M.Resizing];
      rafId := None;
    }

    /** One `mouseup` handler. */
    method OnMouseUp()
      requires Valid()
      modifies this
      ensures Valid() && State() == M.MouseUp(old(State()))
    {
      if !isDragging {
        return;
      }
      isDragging := false;
      emitted := emitted + [M.ResizeEnd];
    }
  }
}
