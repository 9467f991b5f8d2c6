/** The scroll synchroniser between the editor pane and the preview pane: when
    one scrolls, the other is put at the same fraction of its own scroll range.
    Positions and heights are exact reals (no float rounding, no clamping by
    the browser). `x || 1` is "1 when x is 0, x otherwise"; `x || 0` leaves a
    number as it is. */
module MarkdownEditor {

  /** A scrollable element: its scroll position and its heights. */
  class Surface {
    var scrollTop: real
    var scrollHeight: real
    var clientHeight: real

    constructor (top: real, height: real, client: real)
      ensures scrollTop == top && scrollHeight == height && clientHeight == client
    {
      scrollTop, scrollHeight, clientHeight := top, height, client;
    }

    /** How far the element can scroll. */
    function Range(): real
      reads this
    {
      scrollHeight - clientHeight
    }
  }

  /** `range || 1`: the source's range, or 1 when the range is 0, so never 0. */
  function Denominator(range: real): (d: real)
    ensures d != 0.0
    ensures range != 0.0 ==> d == range
    ensures range == 0.0 ==> d == 1.0
  {
    if range == 0.0 then 1.0 else range
  }

  /** The target's new position: the source's position as a fraction of the
      source's range (of 1 when that range is 0), times the target's range.
      The target's position is to its range as the source's is to its own. */
  function SyncedTop(sourceTop: real, sourceRange: real, targetRange: real): (t: real)
    ensures sourceRange != 0.0 ==> t * sourceRange == sourceTop * targetRange
    ensures sourceRange == 0.0 ==> t == sourceTop * targetRange
  {
    sourceTop / Denominator(sourceRange) * targetRange
  }

  /** A source at the top puts the target at the top. */
  lemma TopMapsToTop(sourceRange: real, targetRange: real)
    ensures SyncedTop(0.0, sourceRange, targetRange) == 0.0
  {
  }

  /** A source at the bottom of a non-zero range puts the target at the bottom
      of its own range. */
  lemma BottomMapsToBottom(sourceRange: real, targetRange: real)
    requires sourceRange != 0.0
    ensures SyncedTop(sourceRange, sourceRange, targetRange) == targetRange
  {
  }

  /** A target that cannot scroll is put at 0, wherever the source is. */
  lemma FlatTargetStaysAtTop(sourceTop: real, sourceRange: real)
    ensures SyncedTop(sourceTop, sourceRange, 0.0) == 0.0
  {
  }

  /** A source with a zero range hands its raw position on as the fraction
      (in a browser such a source is always at position 0). */
  lemma FlatSourcePassesPosition(sourceTop: real, targetRange: real)
    ensures SyncedTop(sourceTop, 0.0, targetRange) == sourceTop * targetRange
  {
  }

  /** A position inside a positive source range lands inside the target's
      non-negative range. */
  lemma {:induction false} InRangeMapsInRange(sourceTop: real, sourceRange: real, targetRange: real)
    requires 0.0 <= sourceTop <= sourceRange && sourceRange > 0.0
    requires targetRange >= 0.0
    ensures 0.0 <= SyncedTop(sourceTop, sourceRange, targetRange) <= targetRange
  {
    var fraction := sourceTop / sourceRange;
    assert 0.0 <= fraction <= 1.0 by {
      assert fraction * sourceRange == sourceTop;
    }
    assert fraction * targetRange <= 1.0 * targetRange;
  }

  /** `x || 0` is not a floor at 0: were the target's range negative, the
      mapping would keep it so and, with the source below its top, produce a
      negative position. A browser element never has a negative range, so
      this is about the formula, not about a reachable page state. */
  lemma {:induction false} NegativeRangeNotFloored(sourceTop: real, sourceRange: real, targetRange: real)
    requires sourceTop > 0.0 && sourceRange > 0.0 && targetRange < 0.0
    ensures SyncedTop(sourceTop, sourceRange, targetRange) < 0.0
  {
    var fraction := sourceTop / sourceRange;
    assert fraction > 0.0 by {
      assert fraction * sourceRange == sourceTop;
    }
  }

  /** Mapping there and back with both ranges non-zero restores the position. */
  lemma {:induction false} RoundTrip(top: real, rangeA: real, rangeB: real)
    requires rangeA != 0.0 && rangeB != 0.0
    ensures SyncedTop(SyncedTop(top, rangeA, rangeB), rangeB, rangeA) == top
  {
    var fraction := top / rangeA;
    assert Denominator(rangeA) == rangeA && Denominator(rangeB) == rangeB;
    assert SyncedTop(top, rangeA, rangeB) == fraction * rangeB;
    MulDivCancel(fraction, rangeB);
    assert SyncedTop(top, rangeA, rangeB) / rangeB == fraction;
    MulDivCancel(top, rangeA);
    assert fraction * rangeA == top;
  }

  lemma MulDivCancel(x: real, y: real)
    requires y != 0.0
    ensures x * y / y == x
  {
  }

  /** The editor and preview elements, each possibly not yet mounted. */
  class EditorPanes {
    var editorRef: Surface?
    var previewRef: Surface?

    constructor (editor: Surface?, preview: Surface?)
      ensures editorRef == editor && previewRef == preview
    {
      editorRef, previewRef := editor, preview;
    }

    /** The editor scrolled: the preview is moved to the editor's fraction of
        its own range. Only the preview's position changes, and nothing at all
        when either element is missing. */
    method HandleEditorScroll()
      modifies previewRef
      ensures editorRef == null && previewRef != null ==> unchanged(previewRef)
      ensures editorRef != null && editorRef != previewRef ==> unchanged(editorRef)
      ensures editorRef != null && previewRef != null ==>
                previewRef.scrollTop == SyncedTop(old(editorRef.scrollTop), old(editorRef.Range()), old(previewRef.Range()))
      ensures previewRef != null ==>
                previewRef.scrollHeight == old(previewRef.scrollHeight) && previewRef.clientHeight == old(previewRef.clientHeight)
    {
      if editorRef == null || previewRef == null {
        return;
      }
      var editor, preview := editorRef, previewRef;
      var denom := Denominator(editor.scrollHeight - editor.clientHeight);
      var scrollPercentage := editor.scrollTop / denom;
      preview.scrollTop := scrollPercentage * (preview.scrollHeight - preview.clientHeight);
    }

    /** The preview scrolled: the same mapping with the roles swapped. */
    method HandlePreviewScroll()
      modifies editorRef
      ensures previewRef == null && editorRef != null ==> unchanged(editorRef)
      ensures previewRef != null && previewRef != editorRef ==> unchanged(previewRef)
      ensures editorRef != null && previewRef != null ==>
                editorRef.scrollTop == SyncedTop(old(previewRef.scrollTop), old(previewRef.Range()), old(editorRef.Range()))
      ensures editorRef != null ==>
                editorRef.scrollHeight == old(editorRef.scrollHeight) && editorRef.clientHeight == old(editorRef.clientHeight)
    {
      if editorRef == null || previewRef == null {
        return;
      }
      var editor, preview := editorRef, previewRef;
      var denom := Denominator(preview.scrollHeight - preview.clientHeight);
      var scrollPercentage := preview.scrollTop / denom;
      editor.scrollTop := scrollPercentage * (editor.scrollHeight - editor.clientHeight);
    }
  }

  /** Scrolling the editor and then letting the preview's own scroll event
      sync back leaves the editor where it was, when both ranges are non-zero
      and the two elements are distinct: the echo settles at once. */
  method EchoSettles(panes: EditorPanes)
    requires panes.editorRef != null && panes.previewRef != null && panes.editorRef != panes.previewRef
    requires panes.editorRef.Range() != 0.0 && panes.previewRef.Range() != 0.0
    modifies panes.editorRef, panes.previewRef
    ensures panes.editorRef.scrollTop == old(panes.editorRef.scrollTop)
  {
    var editor, preview := panes.editorRef, panes.previewRef;
    var top, rangeA, rangeB := editor.scrollTop, editor.Range(), preview.Range();
    panes.HandleEditorScroll();
    panes.HandlePreviewScroll();
    RoundTrip(top, rangeA, rangeB);
  }
}
